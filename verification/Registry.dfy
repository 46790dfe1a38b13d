// Discovering webhook events: a walk over the subclass trees of the event roots that
// collects the classes declaring their own webhook metadata.
module Registry {
  import opened Delivery

  // A class as the walk sees it.  `meta` is the name in the metadata the class declares
  // itself, not one it inherits; `abortable` marks pre-events.
  datatype Class = Class(qualname: string, subclasses: seq<Id>, abortable: bool, meta: Option<string>)

  type Classes = map<Id, Class>

  ghost predicate Closed(classes: Classes) {
    forall c, k :: c in classes && 0 <= k < |classes[c].subclasses| ==> classes[c].subclasses[k] in classes
  }

  predicate Listed(classes: Classes, c: Id) {
    c in classes && !classes[c].abortable && classes[c].meta.Some?
  }

  function NameOf(classes: Classes, c: Id): string
    requires Listed(classes, c)
  {
    classes[c].meta.value
  }

  datatype Clash = Clash(name: string, first: string, second: string)

  datatype Outcome = Catalog(entries: seq<Id>) | Collision(clash: Clash)

  function Picked(classes: Classes, visits: seq<Id>): seq<Id> {
    if visits == [] then []
    else
      var last := visits[|visits| - 1];
      Picked(classes, visits[..|visits| - 1]) + if Listed(classes, last) then [last] else []
  }

  lemma {:induction false} PickedAreListed(classes: Classes, visits: seq<Id>)
    ensures forall c :: c in Picked(classes, visits) <==> c in visits && Listed(classes, c)
    ensures Distinct(visits) ==> Distinct(Picked(classes, visits))
  {
    if visits != [] {
      PickedAreListed(classes, visits[..|visits| - 1]);
      assert visits == visits[..|visits| - 1] + [visits[|visits| - 1]];
    }
  }

  // ---- Descendants ----------------------------------------------------------------------

  ghost predicate IsPath(classes: Classes, path: seq<Id>) {
    |path| >= 2 && forall k :: 0 <= k < |path| - 1 ==> path[k] in classes && path[k + 1] in classes[path[k]].subclasses
  }

  ghost predicate Below(classes: Classes, top: Id, c: Id) {
    exists path :: IsPath(classes, path) && path[0] == top && path[|path| - 1] == c
  }

  ghost predicate BelowAny(classes: Classes, roots: seq<Id>, c: Id) {
    exists k :: 0 <= k < |roots| && Below(classes, roots[k], c)
  }

  lemma ChildIsBelow(classes: Classes, top: Id, sub: Id)
    requires top in classes && sub in classes[top].subclasses
    ensures Below(classes, top, sub)
  {
    assert IsPath(classes, [top, sub]);
  }

  lemma BelowChildIsBelow(classes: Classes, top: Id, sub: Id, c: Id)
    requires top in classes && sub in classes[top].subclasses && Below(classes, sub, c)
    ensures Below(classes, top, c)
  {
    var path :| IsPath(classes, path) && path[0] == sub && path[|path| - 1] == c;
    var longer := [top] + path;
    forall k | 0 <= k < |longer| - 1 ensures longer[k] in classes && longer[k + 1] in classes[longer[k]].subclasses {
      if k > 0 {
        assert longer[k] == path[k - 1] && longer[k + 1] == path[k];
      }
    }
    assert IsPath(classes, longer);
  }

  // A set that holds the children of `top` and is closed under children holds everything
  // below `top`.
  ghost predicate HoldsChildren(classes: Classes, c: Id, seen: set<Id>) {
    c in classes ==> forall k :: 0 <= k < |classes[c].subclasses| ==> classes[c].subclasses[k] in seen
  }

  lemma {:induction false} PathStaysInside(classes: Classes, seen: set<Id>, path: seq<Id>)
    requires IsPath(classes, path) && HoldsChildren(classes, path[0], seen)
    requires forall c :: c in seen ==> HoldsChildren(classes, c, seen)
    ensures path[|path| - 1] in seen
    decreases |path|
  {
    assert path[1] in classes[path[0]].subclasses;
    if |path| > 2 {
      var rest := path[1..];
      forall k | 0 <= k < |rest| - 1 ensures rest[k] in classes && rest[k + 1] in classes[rest[k]].subclasses {
        assert rest[k] == path[k + 1] && rest[k + 1] == path[k + 2];
      }
      PathStaysInside(classes, seen, rest);
    }
  }

  // ---- The walk ---------------------------------------------------------------------------

  // What holds between two visits: nothing was visited twice, the entries are the
  // listed classes among the visited ones, and their names are distinct and all noted.
  ghost predicate Consistent(classes: Classes, seen: set<Id>, visits: seq<Id>, entries: seq<Id>,
      byName: map<string, string>) {
    && Distinct(visits) && Elements(visits) == seen
    && entries == Picked(classes, visits)
    && NamesNoted(classes, entries, byName)
  }

  ghost predicate NamesNoted(classes: Classes, entries: seq<Id>, byName: map<string, string>) {
    && (forall k :: 0 <= k < |entries| ==> NotedAs(classes, entries[k], byName))
    && (forall i, j :: 0 <= i < j < |entries| ==>
      Listed(classes, entries[i]) && Listed(classes, entries[j]) &&
        NameOf(classes, entries[i]) != NameOf(classes, entries[j]))
    && (forall name :: name in byName ==>
      exists k :: 0 <= k < |entries| && Listed(classes, entries[k]) && NameOf(classes, entries[k]) == name)
  }

  ghost predicate NotedAs(classes: Classes, c: Id, byName: map<string, string>) {
    Listed(classes, c) && NameOf(classes, c) in byName && byName[NameOf(classes, c)] == classes[c].qualname
  }

  // Two different listed classes, both found, under one name.
  ghost predicate Clashes(classes: Classes, first: Id, second: Id, clash: Clash) {
    && first != second && Listed(classes, first) && Listed(classes, second)
    && NameOf(classes, first) == clash.name == NameOf(classes, second)
    && clash == Clash(clash.name, classes[first].qualname, classes[second].qualname)
  }

  ghost predicate Found(classes: Classes, seen: set<Id>, clash: Clash) {
    exists first, second :: first in seen && second in seen && Clashes(classes, first, second, clash)
  }

  lemma VisitPicks(classes: Classes, seen: set<Id>, visits: seq<Id>, c: Id)
    requires Distinct(visits) && Elements(visits) == seen && c !in seen
    ensures Distinct(visits + [c]) && Elements(visits + [c]) == seen + {c}
    ensures Picked(classes, visits + [c]) == Picked(classes, visits) + if Listed(classes, c) then [c] else []
  {
    assert c !in Elements(visits);
    assert (visits + [c])[..|visits|] == visits;
  }

  lemma EarlierClash(classes: Classes, seen: set<Id>, visits: seq<Id>, entries: seq<Id>, byName: map<string, string>,
      c: Id)
    requires Consistent(classes, seen, visits, entries, byName) && c !in seen
    requires Listed(classes, c) && NameOf(classes, c) in byName
    ensures Found(classes, seen + {c}, Clash(NameOf(classes, c), byName[NameOf(classes, c)], classes[c].qualname))
  {
    PickedAreListed(classes, visits);
    var k :| 0 <= k < |entries| && Listed(classes, entries[k]) && NameOf(classes, entries[k]) == NameOf(classes, c);
    assert NotedAs(classes, entries[k], byName);
    assert entries[k] in entries;
    assert entries[k] in Elements(visits);
    assert Clashes(classes, entries[k], c, Clash(NameOf(classes, c), byName[NameOf(classes, c)], classes[c].qualname));
  }

  lemma NotedOneMore(classes: Classes, entries: seq<Id>, byName: map<string, string>, c: Id)
    requires NamesNoted(classes, entries, byName) && Listed(classes, c) && NameOf(classes, c) !in byName
    ensures NamesNoted(classes, entries + [c], byName[NameOf(classes, c) := classes[c].qualname])
  {
    var more, byName' := entries + [c], byName[NameOf(classes, c) := classes[c].qualname];
    forall k | 0 <= k < |more| ensures NotedAs(classes, more[k], byName') {
      if k < |entries| {
        assert NotedAs(classes, entries[k], byName);
      }
    }
    forall name | name in byName'
      ensures exists k :: 0 <= k < |more| && Listed(classes, more[k]) && NameOf(classes, more[k]) == name {
      if name == NameOf(classes, c) {
        assert more[|entries|] == c;
      } else {
        var k :| 0 <= k < |entries| && Listed(classes, entries[k]) && NameOf(classes, entries[k]) == name;
        assert more[k] == entries[k];
      }
    }
  }

  // The walk's shared variables; `visits` remembers the order of the visits.
  class Discovery {
    const classes: Classes
    var seen: set<Id>
    var entries: seq<Id>
    var byName: map<string, string>
    ghost var visits: seq<Id>

    constructor (classes: Classes)
      ensures this.classes == classes && seen == {} && visits == [] && Valid()
    {
      this.classes := classes;
      seen, entries, byName, visits := {}, [], map[], [];
    }

    ghost predicate Valid()
      reads this
    {
      Consistent(classes, seen, visits, entries, byName) && seen <= classes.Keys
    }

    // One class the walk has not seen yet: note it, and list it unless it is a pre-event
    // or declares no metadata of its own.
    method Visit(c: Id) returns (clash: Option<Clash>)
      requires Valid() && c in classes && c !in seen
      modifies this
      ensures seen == old(seen) + {c} && visits == old(visits) + [c]
      ensures clash.None? ==> Valid()
      ensures clash.Some? ==> Found(classes, seen, clash.value)
    {
      VisitPicks(classes, seen, visits, c);
      if classes[c].abortable || classes[c].meta.None? {
        seen, visits := seen + {c}, visits + [c];
        return None;
      }
      var name := classes[c].meta.value;
      if name in byName {
        EarlierClash(classes, seen, visits, entries, byName, c);
        seen, visits := seen + {c}, visits + [c];
        return Some(Clash(name, byName[name], classes[c].qualname));
      }
      NotedOneMore(classes, entries, byName, c);
      seen, visits := seen + {c}, visits + [c];
      byName := byName[name := classes[c].qualname];
      entries := entries + [c];
      clash := None;
    }

    method Walk(c: Id) returns (clash: Option<Clash>)
      requires Valid() && Closed(classes) && c in classes
      modifies this
      ensures NewAreBelow(classes, c, old(seen), seen)
      ensures clash.None? ==> Valid() && HoldsChildren(classes, c, seen) && NewHoldChildren(classes, old(seen), seen)
      ensures clash.Some? ==> Found(classes, seen, clash.value)
      decreases |classes.Keys - seen|, 2
    {
      ghost var was := seen;
      var subclasses := classes[c].subclasses;
      for i := 0 to |subclasses|
        invariant Valid() && NewAreBelow(classes, c, was, seen) && NewHoldChildren(classes, was, seen)
        invariant FirstSeen(subclasses, i, seen)
      {
        clash := WalkChild(c, subclasses[i], was);
        if clash.Some? {
          return;
        }
      }
      clash := None;
    }

    // One turn of the loop over the subclasses of c.
    method WalkChild(c: Id, sub: Id, ghost was: set<Id>) returns (clash: Option<Clash>)
      requires Valid() && Closed(classes) && c in classes && sub in classes[c].subclasses && sub in classes
      requires NewAreBelow(classes, c, was, seen) && NewHoldChildren(classes, was, seen)
      modifies this
      ensures NewAreBelow(classes, c, was, seen) && old(seen) <= seen
      ensures clash.None? ==> Valid() && NewHoldChildren(classes, was, seen) && sub in seen
      ensures clash.Some? ==> Found(classes, seen, clash.value)
      decreases |classes.Keys - was|, 1
    {
      if sub in seen {
        return None;
      }
      ghost var before := seen;
      NoMoreUnseen(classes.Keys, was, before);
      clash := Enter(sub);
      OneMoreBelow(classes, c, was, before, sub, seen);
      if clash.None? {
        OneMoreClosed(classes, was, before, sub, seen);
      }
    }

    // Visit a class and walk on from it.
    method Enter(sub: Id) returns (clash: Option<Clash>)
      requires Valid() && Closed(classes) && sub in classes && sub !in seen
      modifies this
      ensures NewAreBelow(classes, sub, old(seen) + {sub}, seen)
      ensures clash.None? ==>
        Valid() && HoldsChildren(classes, sub, seen) && NewHoldChildren(classes, old(seen) + {sub}, seen)
      ensures clash.Some? ==> Found(classes, seen, clash.value)
      decreases |classes.Keys - seen|, 0
    {
      FewerUnseen(classes.Keys, seen, sub);
      clash := Visit(sub);
      if clash.None? {
        clash := Walk(sub);
      }
    }
  }

  predicate FirstSeen(subclasses: seq<Id>, n: nat, seen: set<Id>)
    requires n <= |subclasses|
  {
    forall k :: 0 <= k < n ==> subclasses[k] in seen
  }

  // What a walk from c newly sees lies below c ...
  ghost predicate NewAreBelow(classes: Classes, c: Id, was: set<Id>, seen: set<Id>) {
    was <= seen && forall x :: x in seen && x !in was ==> Below(classes, c, x)
  }

  // ... and, once the walk is over, has all its children seen too.
  ghost predicate NewHoldChildren(classes: Classes, was: set<Id>, seen: set<Id>) {
    forall x :: x in seen && x !in was ==> HoldsChildren(classes, x, seen)
  }

  lemma OneMoreBelow(classes: Classes, c: Id, was: set<Id>, before: set<Id>, sub: Id, after: set<Id>)
    requires NewAreBelow(classes, c, was, before) && NewAreBelow(classes, sub, before + {sub}, after)
    requires c in classes && sub in classes[c].subclasses
    ensures NewAreBelow(classes, c, was, after)
  {
    ChildIsBelow(classes, c, sub);
    forall x | x in after && x !in before + {sub} ensures Below(classes, c, x) {
      BelowChildIsBelow(classes, c, sub, x);
    }
  }

  lemma OneMoreClosed(classes: Classes, was: set<Id>, before: set<Id>, sub: Id, after: set<Id>)
    requires NewHoldChildren(classes, was, before) && NewHoldChildren(classes, before + {sub}, after)
    requires before <= after && HoldsChildren(classes, sub, after)
    ensures NewHoldChildren(classes, was, after)
  {
  }

  lemma FewerUnseen(all: set<Id>, seen: set<Id>, sub: Id)
    requires sub in all && sub !in seen
    ensures |all - (seen + {sub})| < |all - seen|
  {
    assert all - (seen + {sub}) == (all - seen) - {sub};
  }

  lemma NoMoreUnseen(all: set<Id>, was: set<Id>, seen: set<Id>)
    requires was <= seen
    ensures |all - seen| <= |all - was|
  {
    SubsetCount(all - seen, all - was);
  }

  // ---- Discovery ----------------------------------------------------------------------------

  // An event: a class that is no pre-event and declares metadata under this name itself.
  ghost predicate Declares(classes: Classes, c: Id, name: string) {
    c in classes && !classes[c].abortable && classes[c].meta == Some(name)
  }

  ghost predicate SharesName(classes: Classes, roots: seq<Id>, first: Id, second: Id, name: string) {
    && first != second && BelowAny(classes, roots, first) && BelowAny(classes, roots, second)
    && Declares(classes, first, name) && Declares(classes, second, name)
  }

  ghost predicate IsDiscovery(classes: Classes, roots: seq<Id>, outcome: Outcome) {
    match outcome
    case Catalog(entries) =>
      && Distinct(entries)
      && (forall c :: c in entries <==> BelowAny(classes, roots, c) && exists name :: Declares(classes, c, name))
      && NoCollision(classes, roots)
    case Collision(clash) =>
      exists first, second ::
        && SharesName(classes, roots, first, second, clash.name)
        && classes[first].qualname == clash.first && classes[second].qualname == clash.second
  }

  ghost predicate NoCollision(classes: Classes, roots: seq<Id>) {
    forall a, b, name :: !SharesName(classes, roots, a, b, name)
  }

  // Terminates on every finite class graph, visits each strict descendant of the roots
  // exactly once, lists exactly those that are no pre-events and declare their own
  // metadata, and collides exactly when two of these share a name.
  method Discover(classes: Classes, roots: seq<Id>) returns (outcome: Outcome, ghost visits: seq<Id>)
    requires Closed(classes) && forall root :: root in roots ==> root in classes
    ensures IsDiscovery(classes, roots, outcome)
    ensures Distinct(visits)
    ensures outcome.Catalog? ==>
      (forall c :: c in visits <==> BelowAny(classes, roots, c)) && outcome.entries == Picked(classes, visits)
    ensures outcome.Collision? <==> !NoCollision(classes, roots)
  {
    var walk := new Discovery(classes);
    for i := 0 to |roots|
      invariant walk.Valid() && walk.classes == classes
      invariant forall x :: x in walk.seen ==> BelowAny(classes, roots, x) && HoldsChildren(classes, x, walk.seen)
      invariant forall k :: 0 <= k < i ==> HoldsChildren(classes, roots[k], walk.seen)
    {
      var clash := walk.Walk(roots[i]);
      if clash.Some? {
        outcome, visits := Collision(clash.value), [];
        ClashIsShared(classes, roots, walk.seen, clash.value);
        return;
      }
    }
    outcome, visits := Catalog(walk.entries), walk.visits;
    SeenIsEverything(classes, roots, walk.seen);
    CatalogIsRight(classes, roots, walk.seen, walk.visits, walk.entries, walk.byName);
  }

  lemma SeenIsEverything(classes: Classes, roots: seq<Id>, seen: set<Id>)
    requires forall x :: x in seen ==> HoldsChildren(classes, x, seen)
    requires forall k :: 0 <= k < |roots| ==> HoldsChildren(classes, roots[k], seen)
    ensures forall c :: BelowAny(classes, roots, c) ==> c in seen
  {
    forall c | BelowAny(classes, roots, c) ensures c in seen {
      var k :| 0 <= k < |roots| && Below(classes, roots[k], c);
      var path :| IsPath(classes, path) && path[0] == roots[k] && path[|path| - 1] == c;
      PathStaysInside(classes, seen, path);
    }
  }

  lemma ClashIsShared(classes: Classes, roots: seq<Id>, seen: set<Id>, clash: Clash)
    requires Found(classes, seen, clash) && forall x :: x in seen ==> BelowAny(classes, roots, x)
    ensures IsDiscovery(classes, roots, Collision(clash)) && !NoCollision(classes, roots)
  {
    var first, second :| first in seen && second in seen && Clashes(classes, first, second, clash);
    assert SharesName(classes, roots, first, second, clash.name);
  }

  lemma EntriesDiffer(classes: Classes, entries: seq<Id>, byName: map<string, string>, a: Id, b: Id)
    requires NamesNoted(classes, entries, byName) && a in entries && b in entries && a != b
    ensures Listed(classes, a) && Listed(classes, b) && NameOf(classes, a) != NameOf(classes, b)
  {
    var i :| 0 <= i < |entries| && entries[i] == a;
    var j :| 0 <= j < |entries| && entries[j] == b;
    assert NotedAs(classes, entries[i], byName) && NotedAs(classes, entries[j], byName);
  }

  lemma CatalogIsRight(classes: Classes, roots: seq<Id>, seen: set<Id>, visits: seq<Id>, entries: seq<Id>,
      byName: map<string, string>)
    requires Consistent(classes, seen, visits, entries, byName)
    requires forall c :: c in seen <==> BelowAny(classes, roots, c)
    ensures IsDiscovery(classes, roots, Catalog(entries))
    ensures forall c :: c in visits <==> c in seen
  {
    PickedAreListed(classes, visits);
    assert forall c :: c in visits <==> c in Elements(visits);
    forall c ensures Listed(classes, c) <==> exists name :: Declares(classes, c, name) {
      if Listed(classes, c) {
        assert Declares(classes, c, NameOf(classes, c));
      }
    }
    forall a, b, name ensures !SharesName(classes, roots, a, b, name) {
      if a != b && a in entries && b in entries {
        EntriesDiffer(classes, entries, byName, a, b);
      }
    }
  }
}
