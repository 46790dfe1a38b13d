// Rotating a secret, end to end: the store's update, the material it hands out later,
// the signatures the dispatcher puts on a delivery, and what a receiver makes of them.
module Rotation {
  import opened Delivery
  import opened Signing
  import opened Subscriptions
  import Text

  // One delivery as it is signed.
  datatype Signable = Signable(deliveryId: string, eventName: string, eventId: string, body: Body)

  // The current secret signs, and the previous one too while its window is open.
  function SignedWith(crypto: Crypto, d: Signable, material: SecretMaterial, now: Time): SignatureHeaders {
    SignBoth(crypto, d.deliveryId, d.eventName, d.eventId, d.body, material.current, material.PreviousAt(now), now)
  }

  // Under which name a receiver finds what, and which macs sign it: the current secret's,
  // and the previous one's before its end.
  lemma SignedDeliverySays(crypto: Crypto, d: Signable, m: SecretMaterial, now: Time, word: string)
    requires PrintsHex(crypto)
    ensures
      var h := SignedWith(crypto, d, m, now).AsDict();
      var message := Text.Show(Seconds(now)) + "." + d.eventId + "." + crypto.sha256(d.body);
      && ReceiverGet(h, "Webhook-Id") == d.deliveryId && ReceiverGet(h, "Webhook-Event") == d.eventName
      && ReceiverGet(h, "Webhook-Event-Id") == d.eventId
      && ReceiverGet(h, "Webhook-Timestamp") == Text.Show(Seconds(now))
      && (Text.IsWord(ReceiverGet(h, "Webhook-Signature"), word) <==>
        || word == "v1=" + crypto.hmac(m.current, message)
        || (m.previous.Some? && m.previousUntil.Some? && now < m.previousUntil.value
            && word == "v1=" + crypto.hmac(m.previous.value, message)))
  {
    SentHeadersAre(crypto, d.deliveryId, d.eventName, d.eventId, d.body, m.current, m.PreviousAt(now), now, word);
  }

  predicate Leaves(op: Op, id: Id) {
    match op
    case Create(sub) => sub.id != id
    case Delete(x) => x != id
    case SetStatus(_, _) => true
    case Rotate(x, _, _) => x != id
  }

  function PgRun(cipher: Cipher, rows: Rows, ops: seq<Op>): Rows {
    if ops == [] then rows else PgDo(PgRun(cipher, rows, ops[..|ops| - 1]), Sealed(cipher, ops[|ops| - 1]))
  }

  function RedisRun(s: RedisSubs, ops: seq<Op>): RedisSubs {
    if ops == [] then s else RedisDo(RedisRun(s, ops[..|ops| - 1]), ops[|ops| - 1])
  }

  // Whatever happens to other subscriptions, and pausing or resuming this one, leaves
  // its secret material alone.
  lemma {:induction false} PgSecretIsLeft(cipher: Cipher, rows: Rows, ops: seq<Op>, id: Id)
    requires id in rows && forall k :: 0 <= k < |ops| ==> Leaves(ops[k], id)
    ensures PgSecret(cipher, PgRun(cipher, rows, ops), id) == PgSecret(cipher, rows, id)
  {
    if ops != [] {
      PgSecretIsLeft(cipher, rows, ops[..|ops| - 1], id);
      assert Leaves(ops[|ops| - 1], id);
    }
  }

  lemma {:induction false} RedisSecretIsLeft(s: RedisSubs, ops: seq<Op>, id: Id)
    requires id in s.subs && s.subs[id].secret != "" && forall k :: 0 <= k < |ops| ==> Leaves(ops[k], id)
    ensures RedisSecret(RedisRun(s, ops).subs, id) == RedisSecret(s.subs, id)
  {
    if ops != [] {
      RedisSecretIsLeft(s, ops[..|ops| - 1], id);
      assert Leaves(ops[|ops| - 1], id);
    }
  }

  // The material a rotation leaves behind, in either store, until the next one.
  lemma MaterialAfterRotation(cipher: Cipher, rows: Rows, s: RedisSubs, id: Id, old': string, new': string,
      until: Time, ops: seq<Op>)
    requires Faithful(cipher) && old' != "" && new' != ""
    requires id in rows && cipher.open(rows[id].secret) == old'
    requires id in s.subs && s.subs[id].secret == old'
    requires forall k :: 0 <= k < |ops| ==> Leaves(ops[k], id)
    ensures PgSecret(cipher, PgRun(cipher, PgDo(rows, Sealed(cipher, Rotate(id, new', until))), ops), id)
         == Ok(SecretMaterial(new', Some(old'), Some(until)))
    ensures RedisSecret(RedisRun(RedisDo(s, Rotate(id, new', until)), ops).subs, id)
         == Ok(SecretMaterial(new', Some(old'), Some(until)))
  {
    PgSecretIsLeft(cipher, PgDo(rows, Sealed(cipher, Rotate(id, new', until))), ops, id);
    RedisSecretIsLeft(RedisDo(s, Rotate(id, new', until)), ops, id);
  }

  // What a receiver holding `secret` answers to a delivery signed at `now` and checked
  // at `now'`, by the engine's verifier and by the one shipped to receivers.
  ghost predicate Accepts(crypto: Crypto, d: Signable, h: Headers, secret: string, now': Time, window: int) {
    && SignerVerify(crypto, d.body, h, secret, now', window) == Accepted
    && ReceiverVerify(crypto, secret, d.body, h, Seconds(now'), window) == Accepted
  }

  ghost predicate Refuses(crypto: Crypto, d: Signable, h: Headers, secret: string, now': Time, window: int) {
    && SignerVerify(crypto, d.body, h, secret, now', window) == BadMac
    && ReceiverVerify(crypto, secret, d.body, h, Seconds(now'), window) == BadMac
  }

  function MacOf(crypto: Crypto, d: Signable, secret: string, now: Time): string {
    Mac(crypto, secret, Seconds(now), d.eventId, d.body)
  }

  function MacsUnder(crypto: Crypto, d: Signable, m: SecretMaterial, now: Time): seq<string> {
    MacsOf(crypto, d.eventId, d.body, m.current, m.PreviousAt(now), Seconds(now))
  }

  // The macs a receiver reads from the signature header.
  function MacsCarried(h: Headers): seq<string> {
    MacsIn(Text.Split(LoweredGet(h, "webhook-signature")))
  }

  // A delivery signed at u verifies with the new secret; before the grace window's end
  // with the old one as well; and from then on it carries exactly one signature, on
  // which the old secret fails.
  ghost predicate Continuous(crypto: Crypto, old': string, new': string, until: Time, d: Signable, u: Time,
      h: Headers, now': Time, window: int)
  {
    && Accepts(crypto, d, h, new', now', window)
    && (u < until ==> Accepts(crypto, d, h, old', now', window))
    && (u >= until ==>
      && MacsCarried(h) == [MacOf(crypto, d, new', u)]
      && (MacOf(crypto, d, old', u) != MacOf(crypto, d, new', u) ==> Refuses(crypto, d, h, old', now', window)))
  }

  // Rotation from `old'` to `new'` at t with grace g, in either store, followed by
  // anything that leaves this secret alone: whatever the dispatcher signs with the
  // material it then reads is received without a gap.
  lemma RotationIsContinuous(crypto: Crypto, cipher: Cipher, rows: Rows, s: RedisSubs, id: Id, old': string,
      new': string, t: Time, g: int, until: Time, ops: seq<Op>,
      d: Signable, u: Time, h: Headers, now': Time, window: int)
    requires GraceUntil(t, g) == Some(until)
    requires Faithful(cipher) && PrintsHex(crypto) && old' != "" && new' != ""
    requires id in rows && cipher.open(rows[id].secret) == old'
    requires id in s.subs && s.subs[id].secret == old'
    requires forall k :: 0 <= k < |ops| ==> Leaves(ops[k], id)
    requires UniqueUpToCase(h) && Signing.Abs(Seconds(now') - Seconds(u)) <= window
    requires CarriesSigned(h, SignedWith(crypto, d, SecretMaterial(new', Some(old'), Some(until)), u))
    ensures PgSecret(cipher, PgRun(cipher, PgDo(rows, Sealed(cipher, Rotate(id, new', until))), ops), id)
         == RedisSecret(RedisRun(RedisDo(s, Rotate(id, new', until)), ops).subs, id)
         == Ok(SecretMaterial(new', Some(old'), Some(until)))
    ensures Continuous(crypto, old', new', until, d, u, h, now', window)
  {
    MaterialAfterRotation(cipher, rows, s, id, old', new', until, ops);
    GraceWindow(crypto, old', new', until, d, u, h, now', window);
  }

  lemma GraceWindow(crypto: Crypto, old': string, new': string, until: Time, d: Signable, u: Time, h: Headers,
      now': Time, window: int)
    requires PrintsHex(crypto) && UniqueUpToCase(h) && Signing.Abs(Seconds(now') - Seconds(u)) <= window
    requires CarriesSigned(h, SignedWith(crypto, d, SecretMaterial(new', Some(old'), Some(until)), u))
    ensures Continuous(crypto, old', new', until, d, u, h, now', window)
  {
    var m := SecretMaterial(new', Some(old'), Some(until));
    assert MacsUnder(crypto, d, m, u) == [MacOf(crypto, d, new', u)] +
      if u < until then [MacOf(crypto, d, old', u)] else [];
    SignedMaterialVerifies(crypto, m, d, u, h, new', now', window);
    SignedMaterialVerifies(crypto, m, d, u, h, old', now', window);
    MacsAreRead(crypto, m, d, u, h);
  }

  lemma SignedMaterialVerifies(crypto: Crypto, m: SecretMaterial, d: Signable, u: Time, h: Headers, secret: string,
      now': Time, window: int)
    requires PrintsHex(crypto) && UniqueUpToCase(h) && Signing.Abs(Seconds(now') - Seconds(u)) <= window
    requires CarriesSigned(h, SignedWith(crypto, d, m, u))
    ensures if MacOf(crypto, d, secret, u) in MacsUnder(crypto, d, m, u)
      then Accepts(crypto, d, h, secret, now', window)
            else Refuses(crypto, d, h, secret, now', window)
  {
    VerifyInvertsSign(crypto, d.deliveryId, d.eventName, d.eventId, d.body, m.current, m.PreviousAt(u), u, h, d.body,
      secret, now', window);
  }

  lemma MacsAreRead(crypto: Crypto, m: SecretMaterial, d: Signable, u: Time, h: Headers)
    requires PrintsHex(crypto) && UniqueUpToCase(h) && CarriesSigned(h, SignedWith(crypto, d, m, u))
    ensures MacsCarried(h) == MacsUnder(crypto, d, m, u)
  {
    SignatureIsRead(h, SignedWith(crypto, d, m, u));
    SignatureIsJoined(crypto, d.deliveryId, d.eventName, d.eventId, d.body, m.current, m.PreviousAt(u), u);
    MacsAreRecovered(MacsUnder(crypto, d, m, u));
  }

  // A second rotation takes over at once: the first secret is refused from then on, even
  // inside the grace window it was given, unless some mac collides.
  lemma SecondRotationClosesTheFirst(crypto: Crypto, cipher: Cipher, rows: Rows, id: Id, new': string, until: Time,
      newer: string, until': Time,
      d: Signable, u: Time, h: Headers, now': Time, window: int)
    requires Faithful(cipher) && PrintsHex(crypto) && id in rows
    requires UniqueUpToCase(h) && Signing.Abs(Seconds(now') - Seconds(u)) <= window
    requires CarriesSigned(h, SignedWith(crypto, d, SecretMaterial(newer, Some(new'), Some(until')), u))
    requires MacOf(crypto, d, cipher.open(rows[id].secret), u) !in [MacOf(crypto, d, newer, u),
      MacOf(crypto, d, new', u)]
    ensures PgSecret(cipher,
      PgDo(PgDo(rows, Sealed(cipher, Rotate(id, new', until))), Sealed(cipher, Rotate(id, newer, until'))), id)
         == Ok(SecretMaterial(newer, Some(new'), Some(until')))
    ensures Refuses(crypto, d, h, cipher.open(rows[id].secret), now', window)
  {
    SignedMaterialVerifies(crypto, SecretMaterial(newer, Some(new'), Some(until')), d, u, h,
      cipher.open(rows[id].secret), now', window);
  }
}
