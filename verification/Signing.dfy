// The shipped signature: HMAC over "timestamp.event-id.digest", carried in Webhook-*
// headers, checked by two verifiers that must not drift apart.
module Signing {
  import opened Delivery
  import opened Text

  newtype Byte = x | 0 <= x < 256

  type Body = seq<Byte>

  // HMAC-SHA256 and SHA-256 as hex-printing functions.
  datatype Crypto = Crypto(hmac: (string, string) -> string, sha256: Body -> string)

  predicate IsHex(s: string) {
    s != [] && forall i :: 0 <= i < |s| ==> IsDigit(s[i]) || 'a' <= s[i] <= 'f'
  }

  ghost predicate PrintsHex(crypto: Crypto) {
    && (forall key, msg :: IsHex(crypto.hmac(key, msg)))
    && (forall body :: IsHex(crypto.sha256(body)))
  }

  // Request headers in order, as a dictionary's items.
  type Headers = seq<(string, string)>

  // RFC 9110 section 5.1: field names are case-insensitive, so each may occur once.
  ghost predicate UniqueUpToCase(h: Headers) {
    forall i, j :: 0 <= i < j < |h| ==> Lower(h[i].0) != Lower(h[j].0)
  }

  // ---- Signing ------------------------------------------------------------------------

  // int(timestamp()): whole seconds, truncated toward zero.
  function Seconds(now: Time): int {
    if now >= 0 then now / SECOND else -((-now) / SECOND)
  }

  lemma SecondsAreWhole(now: Time)
    ensures now >= 0 ==> 0 <= now - Seconds(now) * 1_000_000 < 1_000_000
    ensures now <= 0 ==> -1_000_000 < now - Seconds(now) * 1_000_000 <= 0
  {
  }

  function Message(ts: int, eventId: string, digest: string): string {
    Show(ts) + "." + eventId + "." + digest
  }

  function Mac(crypto: Crypto, secret: string, ts: int, eventId: string, body: Body): string {
    crypto.hmac(secret, Message(ts, eventId, crypto.sha256(body)))
  }

  datatype SignatureHeaders = SignatureHeaders(id: string, event: string, eventId: string, timestamp: string,
    signature: string) {
    function AsDict(): Headers {
      [("Webhook-Id", id), ("Webhook-Event", event), ("Webhook-Event-Id", eventId), ("Webhook-Timestamp", timestamp),
       ("Webhook-Signature", signature), ("Content-Type", "application/json")]
    }
  }

  function Sign(crypto: Crypto, deliveryId: string, eventName: string, eventId: string, body: Body, secret: string,
      now: Time): SignatureHeaders
  {
    var ts := Seconds(now);
    SignatureHeaders(deliveryId, eventName, eventId, Show(ts), "v1=" + Mac(crypto, secret, ts, eventId, body))
  }

  // During a rotation's grace window both secrets sign, the current one first.
  function SignBoth(crypto: Crypto, deliveryId: string, eventName: string, eventId: string, body: Body,
      secret: string, previous: Option<string>, now: Time): SignatureHeaders
  {
    var signed := Sign(crypto, deliveryId, eventName, eventId, body, secret, now);
    if previous.None? then signed
    else
      var older := Sign(crypto, deliveryId, eventName, eventId, body, previous.value, now);
      signed.(signature := signed.signature + " " + older.signature)
  }

  // The signed text determines what was signed, whatever dots the event id contains.
  lemma MessageIsInjective(ts: int, eventId: string, digest: string, ts': int, eventId': string, digest': string)
    requires IsHex(digest) && IsHex(digest')
    requires Message(ts, eventId, digest) == Message(ts', eventId', digest')
    ensures ts == ts' && eventId == eventId' && digest == digest'
  {
    ShownNumbersHaveNoDot(ts);
    ShownNumbersHaveNoDot(ts');
    assert Show(ts) + ['.'] + (eventId + "." + digest) == Message(ts, eventId, digest);
    assert Show(ts') + ['.'] + (eventId' + "." + digest') == Message(ts', eventId', digest');
    CutAtFirst(Show(ts), eventId + "." + digest, Show(ts'), eventId' + "." + digest', '.');
    CutAtLast(eventId, digest, eventId', digest', '.');
    ParseInvertsShow(ts);
    ParseInvertsShow(ts');
  }

  // ---- Reading headers ------------------------------------------------------------------

  // {k.lower(): v for k, v in headers.items()}.get(name, ""): the last one wins.
  function LoweredGet(h: Headers, name: string): string {
    if h == [] then ""
    else if Lower(h[|h| - 1].0) == name then h[|h| - 1].1
    else LoweredGet(h[..|h| - 1], name)
  }

  function ExactGet(h: Headers, name: string): Option<string> {
    if h == [] then None
    else if h[|h| - 1].0 == name then Some(h[|h| - 1].1)
    else ExactGet(h[..|h| - 1], name)
  }

  // The receiver-side lookup tries the exact name first.
  function ReceiverGet(h: Headers, name: string): string {
    if ExactGet(h, name).Some? then ExactGet(h, name).value else LoweredGet(h, Lower(name))
  }

  lemma {:induction false} ExactIsLowered(h: Headers, name: string)
    requires UniqueUpToCase(h) && ExactGet(h, name).Some?
    ensures LoweredGet(h, Lower(name)) == ExactGet(h, name).value
  {
    var front, last := h[..|h| - 1], h[|h| - 1];
    if last.0 != name {
      ExactIsLowered(front, name);
      FoundInFront(front, name);
    }
  }

  lemma {:induction false} FoundInFront(h: Headers, name: string)
    requires ExactGet(h, name).Some?
    ensures exists i :: 0 <= i < |h| && h[i].0 == name
  {
    if h[|h| - 1].0 != name {
      FoundInFront(h[..|h| - 1], name);
      var i :| 0 <= i < |h| - 1 && h[..|h| - 1][i].0 == name;
      assert h[i].0 == name;
    }
  }

  // ---- Verifying ----------------------------------------------------------------------

  datatype Verdict = Accepted | MissingHeaders | BadTimestamp | OutOfWindow | UnsupportedVersion | BadMac

  function MacsIn(parts: seq<string>): seq<string> {
    if parts == [] then []
    else
      var (version, provided) := Partition(parts[0], '=');
      (if version == "v1" && provided != "" then [provided] else []) + MacsIn(parts[1..])
  }

  function Abs(x: int): nat {
    if x < 0 then -x else x
  }

  // HmacSigner.verify
  function SignerVerify(crypto: Crypto, body: Body, h: Headers, secret: string, now: Time, window: int): Verdict {
    var tsRaw := LoweredGet(h, "webhook-timestamp");
    var eventId := LoweredGet(h, "webhook-event-id");
    var sig := LoweredGet(h, "webhook-signature");
    if !(tsRaw != "" && sig != "") then MissingHeaders
    else if ParseInt(tsRaw).None? then BadTimestamp
    else
      var ts := ParseInt(tsRaw).value;
      if Abs(Seconds(now) - ts) > window then OutOfWindow
      else
        var macs := MacsIn(Split(sig));
        if macs == [] then UnsupportedVersion
        else if Mac(crypto, secret, ts, eventId, body) !in macs then BadMac
        else Accepted
  }

  // verify_webhook, the helper shipped to receivers, on their clock in whole seconds.
  function ReceiverVerify(crypto: Crypto, secret: string, body: Body, h: Headers, nowTs: int, window: int): Verdict {
    var tsRaw := ReceiverGet(h, "Webhook-Timestamp");
    var eventId := ReceiverGet(h, "Webhook-Event-Id");
    var sig := ReceiverGet(h, "Webhook-Signature");
    if tsRaw == "" || sig == "" then MissingHeaders
    else if ParseInt(tsRaw).None? then BadTimestamp
    else
      var ts := ParseInt(tsRaw).value;
      if Abs(nowTs - ts) > window then OutOfWindow
      else
        var expected := crypto.hmac(secret, Message(ts, eventId, crypto.sha256(body)));
        var macs := MacsIn(Split(sig));
        if macs == [] then UnsupportedVersion
        else if expected in macs then Accepted
        else BadMac
  }

  // ---- What the verifiers answer, in plain terms --------------------------------------

  lemma {:induction false} MacsAreLabelled(parts: seq<string>, mac: string)
    ensures mac in MacsIn(parts) <==> mac != "" && "v1=" + mac in parts
  {
    if parts != [] {
      MacsAreLabelled(parts[1..], mac);
      LabelIsRead(parts[0], mac);
      assert parts == [parts[0]] + parts[1..];
    }
  }

  lemma LabelIsRead(part: string, mac: string)
    ensures Partition(part, '=') == ("v1", mac) && mac != "" <==> mac != "" && part == "v1=" + mac
  {
    if Partition(part, '=') == ("v1", mac) && mac != "" {
      var i := Find(part, '=');
      assert part == part[..i] + [part[i]] + part[i + 1..];
    }
    if part == "v1=" + mac {
      LabelIsCut(mac);
    }
  }

  // What may be answered to a request that names a timestamp, an event id and a signature
  // at second `clock`.  The mac must stand as a word of its own, labelled v1, among the
  // blank-separated words of the signature.
  ghost predicate Answers(crypto: Crypto, body: Body, secret: string, stamp: string, eventId: string, signature: string,
      clock: int, window: int, verdict: Verdict)
  {
    if stamp == "" || signature == "" then verdict == MissingHeaders
    else if ParseInt(stamp).None? then verdict == BadTimestamp
    else
      var ts := ParseInt(stamp).value;
      if clock - ts > window || ts - clock > window then verdict == OutOfWindow
      else if forall mac :: mac != "" ==> !IsWord(signature, "v1=" + mac) then verdict == UnsupportedVersion
      else
        var mac := crypto.hmac(secret, Show(ts) + "." + eventId + "." + crypto.sha256(body));
        verdict == if mac != "" && IsWord(signature, "v1=" + mac) then Accepted else BadMac
  }

  lemma MacsAreWords(signature: string, mac: string)
    ensures mac in MacsIn(Split(signature)) <==> mac != "" && IsWord(signature, "v1=" + mac)
  {
    MacsAreLabelled(Split(signature), mac);
    SplitGivesTheWords(signature, "v1=" + mac);
  }

  lemma NoMacsNoWords(signature: string)
    ensures MacsIn(Split(signature)) == [] <==> forall mac :: mac != "" ==> !IsWord(signature, "v1=" + mac)
  {
    var macs := MacsIn(Split(signature));
    if macs != [] {
      MacsAreWords(signature, macs[0]);
    }
    forall mac | mac != "" && IsWord(signature, "v1=" + mac) ensures macs != [] {
      MacsAreWords(signature, mac);
    }
  }

  // On any headers whatever, both verifiers answer exactly that to what they read.
  lemma SignerAnswers(crypto: Crypto, body: Body, h: Headers, secret: string, now: Time, window: int)
    ensures Answers(crypto, body, secret, LoweredGet(h, "webhook-timestamp"), LoweredGet(h, "webhook-event-id"),
      LoweredGet(h, "webhook-signature"), Seconds(now), window, SignerVerify(crypto, body, h, secret, now, window))
  {
    var signature := LoweredGet(h, "webhook-signature");
    NoMacsNoWords(signature);
    if ParseInt(LoweredGet(h, "webhook-timestamp")).Some? {
      var ts := ParseInt(LoweredGet(h, "webhook-timestamp")).value;
      MacsAreWords(signature, Mac(crypto, secret, ts, LoweredGet(h, "webhook-event-id"), body));
    }
  }

  lemma ReceiverAnswers(crypto: Crypto, body: Body, h: Headers, secret: string, clock: int, window: int)
    ensures Answers(crypto, body, secret, ReceiverGet(h, "Webhook-Timestamp"), ReceiverGet(h, "Webhook-Event-Id"),
      ReceiverGet(h, "Webhook-Signature"), clock, window, ReceiverVerify(crypto, secret, body, h, clock, window))
  {
    var signature := ReceiverGet(h, "Webhook-Signature");
    NoMacsNoWords(signature);
    if ParseInt(ReceiverGet(h, "Webhook-Timestamp")).Some? {
      var ts := ParseInt(ReceiverGet(h, "Webhook-Timestamp")).value;
      MacsAreWords(signature, Mac(crypto, secret, ts, ReceiverGet(h, "Webhook-Event-Id"), body));
    }
  }

  // The two verifiers give the same answer, down to the reason for a refusal, on every
  // set of headers in which no name occurs in two spellings.
  lemma VerifiersAgree(crypto: Crypto, body: Body, h: Headers, secret: string, now: Time, window: int)
    requires UniqueUpToCase(h)
    ensures SignerVerify(crypto, body, h, secret, now, window) ==
      ReceiverVerify(crypto, secret, body, h, Seconds(now), window)
  {
    NamesInLowerCase();
    SameLookup(h, "Webhook-Timestamp");
    SameLookup(h, "Webhook-Event-Id");
    SameLookup(h, "Webhook-Signature");
  }

  lemma SameLookup(h: Headers, name: string)
    requires UniqueUpToCase(h)
    ensures ReceiverGet(h, name) == LoweredGet(h, Lower(name))
  {
    if ExactGet(h, name).Some? {
      ExactIsLowered(h, name);
    }
  }

  // A header dictionary has each exact spelling at most once.
  ghost predicate IsDict(h: Headers) {
    forall i, j :: 0 <= i < j < |h| ==> h[i].0 != h[j].0
  }

  predicate IsLastSpelling(h: Headers, j: nat, lowered: string) {
    j < |h| && Lower(h[j].0) == lowered && forall k :: j < k < |h| ==> Lower(h[k].0) != lowered
  }

  // The exact spelling is there, but the last spelling is another and says otherwise.
  ghost predicate Overridden(h: Headers, name: string) {
    exists i: nat, j: nat :: i < j < |h| && h[i].0 == name && IsLastSpelling(h, j, Lower(name)) && h[j].1 != h[i].1
  }

  lemma {:induction false} LastSpellingIsRead(h: Headers, j: nat, lowered: string)
    requires IsLastSpelling(h, j, lowered)
    ensures LoweredGet(h, lowered) == h[j].1
  {
    if j < |h| - 1 {
      LastSpellingIsRead(h[..|h| - 1], j, lowered);
    }
  }

  lemma {:induction false} MissingNameIsEmpty(h: Headers, lowered: string)
    requires forall i :: 0 <= i < |h| ==> Lower(h[i].0) != lowered
    ensures LoweredGet(h, lowered) == ""
  {
    if h != [] {
      MissingNameIsEmpty(h[..|h| - 1], lowered);
    }
  }

  lemma {:induction false} ExactSpellingIsRead(h: Headers, i: nat)
    requires IsDict(h) && i < |h|
    ensures ExactGet(h, h[i].0) == Some(h[i].1)
  {
    if i < |h| - 1 {
      ExactSpellingIsRead(h[..|h| - 1], i);
    }
  }

  lemma SomeSpellingIsLast(h: Headers, i: nat, lowered: string) returns (j: nat)
    requires i < |h| && Lower(h[i].0) == lowered
    ensures i <= j && IsLastSpelling(h, j, lowered)
  {
    j := i;
    for k := i + 1 to |h|
      invariant i <= j < k && Lower(h[j].0) == lowered
      invariant forall m :: j < m < k ==> Lower(h[m].0) != lowered
    {
      if Lower(h[k].0) == lowered {
        j := k;
      }
    }
  }

  // On any dictionary at all, the two lookups of a name differ exactly when its exact
  // spelling is overridden.
  lemma LookupsDifferExactlyWhenOverridden(h: Headers, name: string)
    requires IsDict(h)
    ensures ReceiverGet(h, name) != LoweredGet(h, Lower(name)) <==> Overridden(h, name)
  {
    if ExactGet(h, name).Some? {
      FoundInFront(h, name);
      var i: nat :| i < |h| && h[i].0 == name;
      ExactSpellingIsRead(h, i);
      var last := SomeSpellingIsLast(h, i, Lower(name));
      LastSpellingIsRead(h, last, Lower(name));
    }
    if Overridden(h, name) {
      var i: nat, j: nat :| i < j < |h| && h[i].0 == name && IsLastSpelling(h, j, Lower(name)) && h[j].1 != h[i].1;
      ExactSpellingIsRead(h, i);
      LastSpellingIsRead(h, j, Lower(name));
    }
  }

  // So the verifiers agree on every dictionary in which none of the three is overridden.
  lemma VerifiersAgreeUnlessOverridden(crypto: Crypto, body: Body, h: Headers, secret: string, now: Time, window: int)
    requires IsDict(h)
    requires !Overridden(h, "Webhook-Timestamp") && !Overridden(h, "Webhook-Event-Id")
    requires !Overridden(h, "Webhook-Signature")
    ensures SignerVerify(crypto, body, h, secret, now, window) ==
      ReceiverVerify(crypto, secret, body, h, Seconds(now), window)
  {
    NamesInLowerCase();
    LookupsDifferExactlyWhenOverridden(h, "Webhook-Timestamp");
    LookupsDifferExactlyWhenOverridden(h, "Webhook-Event-Id");
    LookupsDifferExactlyWhenOverridden(h, "Webhook-Signature");
  }

  lemma NamesInLowerCase()
    ensures Lower("Webhook-Timestamp") == "webhook-timestamp"
    ensures Lower("Webhook-Event-Id") == "webhook-event-id"
    ensures Lower("Webhook-Signature") == "webhook-signature"
  {
  }

  // ---- The round trip -----------------------------------------------------------------

  function Labelled(macs: seq<string>): (parts: seq<string>)
    ensures |parts| == |macs|
    ensures forall i :: 0 <= i < |macs| ==> parts[i] == "v1=" + macs[i]
  {
    seq(|macs|, i requires 0 <= i < |macs| => "v1=" + macs[i])
  }

  lemma LabelIsCut(mac: string)
    ensures Partition("v1=" + mac, '=') == ("v1", mac)
  {
    var part := "v1=" + mac;
    assert part[..2] == "v1" && part[3..] == mac;
    FoundFirst(part, '=', 2);
  }

  lemma {:induction false} MacsInLabelled(macs: seq<string>)
    requires forall i :: 0 <= i < |macs| ==> macs[i] != ""
    ensures MacsIn(Labelled(macs)) == macs
  {
    if |macs| > 0 {
      LabelIsCut(macs[0]);
      MacsInLabelled(macs[1..]);
      assert Labelled(macs)[1..] == Labelled(macs[1..]);
    }
  }

  // Any number of labelled macs, joined with spaces, is read back exactly.
  lemma MacsAreRecovered(macs: seq<string>)
    requires forall i :: 0 <= i < |macs| ==> IsHex(macs[i])
    ensures MacsIn(Split(Join(Labelled(macs)))) == macs
  {
    SplitInvertsJoin(Labelled(macs));
    MacsInLabelled(macs);
  }

  // The macs a delivery carries: one, or two while a rotation's grace window is open.
  function MacsOf(crypto: Crypto, eventId: string, body: Body, secret: string, previous: Option<string>,
      ts: int): seq<string> {
    [Mac(crypto, secret, ts, eventId, body)] +
      if previous.None? then [] else [Mac(crypto, previous.value, ts, eventId, body)]
  }

  lemma SignatureIsJoined(crypto: Crypto, deliveryId: string, eventName: string, eventId: string, body: Body,
      secret: string, previous: Option<string>, now: Time)
    ensures SignBoth(crypto, deliveryId, eventName, eventId, body, secret, previous, now).signature
         == Join(Labelled(MacsOf(crypto, eventId, body, secret, previous, Seconds(now))))
  {
    var macs := MacsOf(crypto, eventId, body, secret, previous, Seconds(now));
    if previous.Some? {
      assert Labelled(macs)[1..] == [Labelled(macs)[1]];
    }
  }

  // A request carries the signed headers if each of them is there, in some spelling and
  // at some place, among any others.
  ghost predicate Carries(h: Headers, name: string, value: string) {
    exists i :: 0 <= i < |h| && Lower(h[i].0) == Lower(name) && h[i].1 == value
  }

  ghost predicate CarriesSigned(h: Headers, signed: SignatureHeaders) {
    && Carries(h, "Webhook-Timestamp", signed.timestamp)
    && Carries(h, "Webhook-Event-Id", signed.eventId)
    && Carries(h, "Webhook-Signature", signed.signature)
  }

  lemma DictCarriesSigned(signed: SignatureHeaders)
    ensures CarriesSigned(signed.AsDict(), signed)
  {
    var h := signed.AsDict();
    assert h[3] == ("Webhook-Timestamp", signed.timestamp);
    assert h[2] == ("Webhook-Event-Id", signed.eventId);
    assert h[4] == ("Webhook-Signature", signed.signature);
  }

  lemma {:induction false} CarriedIsRead(h: Headers, i: nat, name: string)
    requires UniqueUpToCase(h) && i < |h| && Lower(h[i].0) == name
    ensures LoweredGet(h, name) == h[i].1
  {
    if i < |h| - 1 {
      CarriedIsRead(h[..|h| - 1], i, name);
    }
  }

  lemma ReadsSigned(h: Headers, name: string, value: string)
    requires UniqueUpToCase(h) && Carries(h, name, value)
    ensures LoweredGet(h, Lower(name)) == value
  {
    var i :| 0 <= i < |h| && Lower(h[i].0) == Lower(name) && h[i].1 == value;
    CarriedIsRead(h, i, Lower(name));
  }

  lemma SignatureIsRead(h: Headers, signed: SignatureHeaders)
    requires UniqueUpToCase(h) && CarriesSigned(h, signed)
    ensures LoweredGet(h, "webhook-signature") == signed.signature
  {
    NamesInLowerCase();
    ReadsSigned(h, "Webhook-Signature", signed.signature);
  }

  lemma JoinedIsNotEmpty(macs: seq<string>)
    requires macs != []
    ensures Join(Labelled(macs)) != ""
  {
  }

  // Verification undoes signing, whatever the receiver's secret, body and clock: it
  // accepts exactly within the window and on one of the macs that were sent, and the
  // reason for a refusal is exactly the one that applies.
  lemma VerifyInvertsSign(crypto: Crypto, deliveryId: string, eventName: string, eventId: string, body: Body,
      secret: string, previous: Option<string>, now: Time,
      h: Headers, body': Body, secret': string, now': Time, window: int)
    requires PrintsHex(crypto) && UniqueUpToCase(h)
    requires CarriesSigned(h, SignBoth(crypto, deliveryId, eventName, eventId, body, secret, previous, now))
    ensures SignerVerify(crypto, body', h, secret', now', window)
         == if Abs(Seconds(now') - Seconds(now)) > window then OutOfWindow
            else if Mac(crypto, secret', Seconds(now), eventId, body') in MacsOf(crypto, eventId, body, secret,
              previous, Seconds(now)) then Accepted
            else BadMac
    ensures ReceiverVerify(crypto, secret', body', h, Seconds(now'), window) ==
      SignerVerify(crypto, body', h, secret', now', window)
  {
    var signed := SignBoth(crypto, deliveryId, eventName, eventId, body, secret, previous, now);
    var macs := MacsOf(crypto, eventId, body, secret, previous, Seconds(now));
    NamesInLowerCase();
    ReadsSigned(h, "Webhook-Timestamp", signed.timestamp);
    ReadsSigned(h, "Webhook-Event-Id", signed.eventId);
    ReadsSigned(h, "Webhook-Signature", signed.signature);
    ParseInvertsShow(Seconds(now));
    ShownNumbersHaveNoDot(Seconds(now));
    SignatureIsJoined(crypto, deliveryId, eventName, eventId, body, secret, previous, now);
    MacsAreRecovered(macs);
    JoinedIsNotEmpty(macs);
    VerifiersAgree(crypto, body', h, secret', now', window);
  }

  lemma SignedDictIsUnique(signed: SignatureHeaders)
    ensures UniqueUpToCase(signed.AsDict())
  {
    var h := signed.AsDict();
    var names := ["webhook-id", "webhook-event", "webhook-event-id", "webhook-timestamp", "webhook-signature",
      "content-type"];
    DictNamesInLowerCase();
    assert forall i :: 0 <= i < |h| ==> Lower(h[i].0) == names[i];
    DictNamesDiffer(names);
  }

  lemma DictNamesInLowerCase()
    ensures Lower("Webhook-Id") == "webhook-id" && Lower("Webhook-Event") == "webhook-event"
    ensures Lower("Webhook-Event-Id") == "webhook-event-id" && Lower("Webhook-Timestamp") == "webhook-timestamp"
    ensures Lower("Webhook-Signature") == "webhook-signature" && Lower("Content-Type") == "content-type"
  {
  }

  // The names differ by their lengths, but for two of equal length that end differently.
  lemma DictNamesDiffer(names: seq<string>)
    requires names ==
      ["webhook-id", "webhook-event", "webhook-event-id", "webhook-timestamp", "webhook-signature", "content-type"]
    ensures forall i, j :: 0 <= i < j < |names| ==> names[i] != names[j]
  {
    assert |names[0]| == 10 && |names[1]| == 13 && |names[2]| == 16 && |names[5]| == 12;
    assert |names[3]| == 17 && |names[4]| == 17 && names[3][8] == 't' && names[4][8] == 's';
  }

  // In particular the very headers the engine sends are accepted by both verifiers, under
  // either secret, for as long as the window lasts.
  lemma SentHeadersVerify(crypto: Crypto, deliveryId: string, eventName: string, eventId: string, body: Body,
      secret: string, previous: Option<string>, now: Time, now': Time, window: int)
    requires PrintsHex(crypto) && Abs(Seconds(now') - Seconds(now)) <= window
    ensures
      var h := SignBoth(crypto, deliveryId, eventName, eventId, body, secret, previous, now).AsDict();
      && SignerVerify(crypto, body, h, secret, now', window) == Accepted
      && ReceiverVerify(crypto, secret, body, h, Seconds(now'), window) == Accepted
      && (previous.Some? ==> SignerVerify(crypto, body, h, previous.value, now', window) == Accepted)
      && (previous.Some? ==> ReceiverVerify(crypto, previous.value, body, h, Seconds(now'), window) == Accepted)
  {
    var signed := SignBoth(crypto, deliveryId, eventName, eventId, body, secret, previous, now);
    SignedDictIsUnique(signed);
    DictCarriesSigned(signed);
    VerifyInvertsSign(crypto, deliveryId, eventName, eventId, body, secret, previous, now,
                      signed.AsDict(), body, secret, now', window);
    if previous.Some? {
      VerifyInvertsSign(crypto, deliveryId, eventName, eventId, body, secret, previous, now,
                        signed.AsDict(), body, previous.value, now', window);
    }
  }

  // What goes out under each name, as a receiver looks it up; the signature's words are
  // the labelled macs of the secrets that sign, and nothing else.
  lemma SentHeadersAre(crypto: Crypto, deliveryId: string, eventName: string, eventId: string, body: Body,
      secret: string, previous: Option<string>, now: Time, word: string)
    requires PrintsHex(crypto)
    ensures
      var h := SignBoth(crypto, deliveryId, eventName, eventId, body, secret, previous, now).AsDict();
      var message := Show(Seconds(now)) + "." + eventId + "." + crypto.sha256(body);
      && ReceiverGet(h, "Webhook-Id") == deliveryId && ReceiverGet(h, "Webhook-Event") == eventName
      && ReceiverGet(h, "Webhook-Event-Id") == eventId && ReceiverGet(h, "Webhook-Timestamp") == Show(Seconds(now))
      && ReceiverGet(h, "Content-Type") == "application/json"
      && (IsWord(ReceiverGet(h, "Webhook-Signature"), word)
          <==> word == "v1=" + crypto.hmac(secret, message)
               || (previous.Some? && word == "v1=" + crypto.hmac(previous.value, message)))
  {
    var signed := SignBoth(crypto, deliveryId, eventName, eventId, body, secret, previous, now);
    var macs := MacsOf(crypto, eventId, body, secret, previous, Seconds(now));
    DictIsRead(signed);
    SignatureIsJoined(crypto, deliveryId, eventName, eventId, body, secret, previous, now);
    SplitInvertsJoin(Labelled(macs));
    SplitGivesTheWords(signed.signature, word);
  }

  lemma DictIsRead(signed: SignatureHeaders)
    ensures
      var h := signed.AsDict();
      && ReceiverGet(h, "Webhook-Id") == signed.id && ReceiverGet(h, "Webhook-Event") == signed.event
      && ReceiverGet(h, "Webhook-Event-Id") == signed.eventId
      && ReceiverGet(h, "Webhook-Timestamp") == signed.timestamp
      && ReceiverGet(h, "Webhook-Signature") == signed.signature
      && ReceiverGet(h, "Content-Type") == "application/json"
  {
    var h := signed.AsDict();
    SignedDictIsUnique(signed);
    forall i | 0 <= i < |h| ensures ReceiverGet(h, h[i].0) == h[i].1 {
      ExactSpellingIsRead(h, i);
    }
    assert h[0].0 == "Webhook-Id" && h[1].0 == "Webhook-Event" && h[2].0 == "Webhook-Event-Id";
    assert h[3].0 == "Webhook-Timestamp" && h[4].0 == "Webhook-Signature" && h[5].0 == "Content-Type";
  }

  // With a mac that never collides, an accepted request carries the very body that was
  // signed (up to its digest), under a secret that signed it.
  lemma AcceptedMeansSigned(crypto: Crypto, deliveryId: string, eventName: string, eventId: string, body: Body,
      secret: string, previous: Option<string>, now: Time,
      h: Headers, body': Body, secret': string, now': Time, window: int)
    requires PrintsHex(crypto) && UniqueUpToCase(h)
    requires CarriesSigned(h, SignBoth(crypto, deliveryId, eventName, eventId, body, secret, previous, now))
    requires forall k, m, k', m' :: crypto.hmac(k, m) == crypto.hmac(k', m') ==> k == k' && m == m'
    ensures SignerVerify(crypto, body', h, secret', now', window) == Accepted
      <==> && Abs(Seconds(now') - Seconds(now)) <= window
           && crypto.sha256(body') == crypto.sha256(body)
           && (secret' == secret || previous == Some(secret'))
  {
    VerifyInvertsSign(crypto, deliveryId, eventName, eventId, body, secret, previous, now, h, body', secret',
      now', window);
    var ts := Seconds(now);
    var sent := Message(ts, eventId, crypto.sha256(body));
    var checked := Message(ts, eventId, crypto.sha256(body'));
    if checked == sent {
      MessageIsInjective(ts, eventId, crypto.sha256(body), ts, eventId, crypto.sha256(body'));
    }
    assert Mac(crypto, secret', ts, eventId, body') == crypto.hmac(secret', checked);
    assert Mac(crypto, secret, ts, eventId, body) == crypto.hmac(secret, sent);
    if previous.Some? {
      assert Mac(crypto, previous.value, ts, eventId, body) == crypto.hmac(previous.value, sent);
    }
  }

  function TwoSpellings(): Headers {
    [("Webhook-Timestamp", "0"), ("webhook-timestamp", "9"), ("Webhook-Signature", "v")]
  }

  lemma TwoSpellingsAreRead()
    ensures IsDict(TwoSpellings())
    ensures LoweredGet(TwoSpellings(), "webhook-timestamp") == "9"
    ensures LoweredGet(TwoSpellings(), "webhook-signature") == "v"
    ensures ReceiverGet(TwoSpellings(), "Webhook-Timestamp") == "0"
  {
    var h := TwoSpellings();
    NamesInLowerCase();
    assert Lower("webhook-timestamp") == "webhook-timestamp";
    LastSpellingIsRead(h, 1, "webhook-timestamp");
    LastSpellingIsRead(h, 2, "webhook-signature");
    ExactSpellingIsRead(h, 0);
  }

  lemma DigitsAreRead()
    ensures ParseInt("0") == Some(0) && ParseInt("9") == Some(9)
  {
    ParseInvertsShow(0);
    ParseInvertsShow(9);
    assert Show(0) == "0" && Show(9) == "9";
  }

  // A request the engine's verifier refuses as too old and the receiver's does not.
  lemma TwoSpellingsSplitTheVerifiers(crypto: Crypto, secret: string, body: Body)
    ensures exists h: Headers ::
      IsDict(h) && SignerVerify(crypto, body, h, secret, 0, 0) == OutOfWindow &&
        ReceiverVerify(crypto, secret, body, h, 0, 0) != OutOfWindow
  {
    TwoSpellingsAreRead();
    DigitsAreRead();
    assert IsDict(TwoSpellings());
  }
}
