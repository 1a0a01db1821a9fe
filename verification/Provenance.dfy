/** The check that an authored rule neither adds nor rebinds protected fields: one pass counts the protected identities
    of the value before, a second pass uses the counts up. Both walk objects as unordered tables. */
module Provenance {
  import opened Options

  /** A JSON value with its original spelling. An object lists its members as written; a repeated name means its last
      member, as in the table the reader builds. */
  datatype Value =
    | Scalar(raw: string)
    | List(raw: string, items: seq<Value>)
    | Object(raw: string, fields: seq<Field>)

  datatype Field = Field(key: string, child: Value)

  /** What the check compares: the name, the spelling, and for resources the unprotected rest of the object. */
  datatype Identity = Identity(key: string, raw: string, owner: Option<map<string, string>>)

  const RESOURCES := "resources"

  predicate IsProtected(key: string) {
    || key == "source" || key == "native" || key == "scope" || key == RESOURCES || key == "thoughtSignature"
    || key == "signature" || key == "encrypted_content" || key == "elysia_continuation" || key == "responsesTurnState"
  }

  predicate IsLast(fields: seq<Field>, i: nat)
    requires i < |fields|
  {
    forall j :: i < j < |fields| ==> fields[j].key != fields[i].key
  }

  function Table(fields: seq<Field>): set<nat> {
    set i: nat | i < |fields| && IsLast(fields, i)
  }

  predicate OwnsData(key: string) {
    key != "source" && key != "native" && key != RESOURCES && key != "children"
  }

  function Owner(fields: seq<Field>): map<string, string> {
    map i | i in Table(fields) && OwnsData(fields[i].key) :: fields[i].key := fields[i].child.raw
  }

  function IdentityOf(fields: seq<Field>, i: nat): Identity
    requires i < |fields|
  {
    Identity(fields[i].key, fields[i].child.raw, if fields[i].key == RESOURCES then Some(Owner(fields)) else None)
  }

  /** How often an identity occurs in a value, outside of other protected data. */
  function Count(v: Value, id: Identity): nat
    decreases v, 1, 0, 0
  {
    match v
    case Scalar(_) => 0
    case List(_, items) => CountItems(v, |items|, id)
    case Object(_, fields) => CountIn(v, Table(fields), |fields|, id)
  }

  function CountItems(v: Value, n: nat, id: Identity): nat
    requires v.List? && n <= |v.items|
    decreases v, 0, n, 1
  {
    if n == 0 then 0 else CountItems(v, n - 1, id) + Count(v.items[n - 1], id)
  }

  function CountField(v: Value, i: nat, id: Identity): nat
    requires v.Object? && i < |v.fields|
    decreases v, 0, i, 0
  {
    if IsProtected(v.fields[i].key) then
      if IdentityOf(v.fields, i) == id then 1 else 0
    else Count(v.fields[i].child, id)
  }

  function CountIn(v: Value, chosen: set<nat>, n: nat, id: Identity): nat
    requires v.Object? && n <= |v.fields|
    decreases v, 0, n, 1
  {
    if n == 0 then 0
    else CountIn(v, chosen, n - 1, id) + if n - 1 in chosen then CountField(v, n - 1, id) else 0
  }

  ghost predicate Included(after: Value, before: Value) {
    forall id {:trigger Count(after, id)} :: Count(after, id) <= Count(before, id)
  }

  /** One object of a value, reached without passing through protected data. */
  ghost predicate Reaches(v: Value, node: Value)
    decreases v
  {
    || v == node
    || (v.List? && exists i :: 0 <= i < |v.items| && Reaches(v.items[i], node))
    || (v.Object? && exists i :: i in Table(v.fields) && !IsProtected(v.fields[i].key) && Reaches(v.fields[i].child, node))
  }

  ghost predicate Carries(node: Value, id: Identity) {
    node.Object? && exists i :: i in Table(node.fields) && IsProtected(node.fields[i].key) && IdentityOf(node.fields, i) == id
  }

  ghost predicate Occurs(v: Value, id: Identity) {
    exists node :: Reaches(v, node) && Carries(node, id)
  }

  lemma {:induction false} ItemCounted(v: Value, n: nat, i: nat, id: Identity)
    requires v.List? && i < n <= |v.items|
    ensures Count(v.items[i], id) <= CountItems(v, n, id)
    decreases n
  {
    if i < n - 1 { ItemCounted(v, n - 1, i, id); }
  }

  lemma {:induction false} FieldCounted(v: Value, chosen: set<nat>, n: nat, i: nat, id: Identity)
    requires v.Object? && i < n <= |v.fields| && i in chosen
    ensures CountField(v, i, id) <= CountIn(v, chosen, n, id)
    decreases n
  {
    if i < n - 1 { FieldCounted(v, chosen, n - 1, i, id); }
  }

  /** Choosing one more member adds exactly its own count, whichever member it is. */
  lemma {:induction false} ChooseOne(v: Value, chosen: set<nat>, i: nat, n: nat, id: Identity)
    requires v.Object? && n <= |v.fields| && i < |v.fields| && i !in chosen
    ensures CountIn(v, chosen + {i}, n, id) == CountIn(v, chosen, n, id) + if i < n then CountField(v, i, id) else 0
    decreases n
  {
    if n > 0 { ChooseOne(v, chosen, i, n - 1, id); }
  }

  lemma {:induction false} FewerCountLess(v: Value, chosen: set<nat>, all: set<nat>, n: nat, id: Identity)
    requires v.Object? && n <= |v.fields| && chosen <= all
    ensures CountIn(v, chosen, n, id) <= CountIn(v, all, n, id)
    decreases n
  {
    if n > 0 { FewerCountLess(v, chosen, all, n - 1, id); }
  }

  lemma {:induction false} NoneChosen(v: Value, n: nat, id: Identity)
    requires v.Object? && n <= |v.fields|
    ensures CountIn(v, {}, n, id) == 0
    decreases n
  {
    if n > 0 { NoneChosen(v, n - 1, id); }
  }

  lemma {:induction false} CountedItem(v: Value, n: nat, id: Identity) returns (i: nat)
    requires v.List? && n <= |v.items| && CountItems(v, n, id) > 0
    ensures i < n && Count(v.items[i], id) > 0
    decreases n
  {
    if Count(v.items[n - 1], id) > 0 { i := n - 1; } else { i := CountedItem(v, n - 1, id); }
  }

  lemma {:induction false} CountedField(v: Value, chosen: set<nat>, n: nat, id: Identity) returns (i: nat)
    requires v.Object? && n <= |v.fields| && CountIn(v, chosen, n, id) > 0
    ensures i < n && i in chosen && CountField(v, i, id) > 0
    decreases n
  {
    if n - 1 in chosen && CountField(v, n - 1, id) > 0 { i := n - 1; } else { i := CountedField(v, chosen, n - 1, id); }
  }

  /** A positive count names an object that carries the identity. */
  lemma {:induction false} CarrierOf(v: Value, id: Identity) returns (node: Value)
    requires Count(v, id) > 0
    ensures Reaches(v, node) && Carries(node, id)
    decreases v
  {
    match v
    case Scalar(_) =>
    case List(_, items) =>
      var i := CountedItem(v, |items|, id);
      node := CarrierOf(items[i], id);
    case Object(_, fields) =>
      var i := CountedField(v, Table(fields), |fields|, id);
      if IsProtected(fields[i].key) {
        node := v;
      } else {
        node := CarrierOf(fields[i].child, id);
      }
  }

  lemma {:induction false} CarrierIsCounted(v: Value, node: Value, id: Identity)
    requires Reaches(v, node) && Carries(node, id)
    ensures Count(v, id) > 0
    decreases v
  {
    if v == node {
      var i :| i in Table(v.fields) && IsProtected(v.fields[i].key) && IdentityOf(v.fields, i) == id;
      FieldCounted(v, Table(v.fields), |v.fields|, i, id);
    } else if v.List? {
      var i :| 0 <= i < |v.items| && Reaches(v.items[i], node);
      CarrierIsCounted(v.items[i], node, id);
      ItemCounted(v, |v.items|, i, id);
    } else {
      var i :| i in Table(v.fields) && !IsProtected(v.fields[i].key) && Reaches(v.fields[i].child, node);
      CarrierIsCounted(v.fields[i].child, node, id);
      FieldCounted(v, Table(v.fields), |v.fields|, i, id);
    }
  }

  /** Counting finds exactly the identities carried somewhere outside protected data. */
  lemma CountedMeansOccurs(v: Value, id: Identity)
    ensures Count(v, id) > 0 <==> Occurs(v, id)
  {
    if Count(v, id) > 0 { var _ := CarrierOf(v, id); }
    if Occurs(v, id) {
      var node :| Reaches(v, node) && Carries(node, id);
      CarrierIsCounted(v, node, id);
    }
  }

  ghost predicate SameResources(origin: Value, raw: string, owner: map<string, string>) {
    origin.Object? && Owner(origin.fields) == owner
    && exists j :: j in Table(origin.fields) && origin.fields[j].key == RESOURCES && origin.fields[j].child.raw == raw
  }

  /** What an accepted change cannot do to resources: alter them, or put them beside other data than that of an object
      that had them. Children, source and native are not part of what is compared. */
  lemma ResourcesKeepTheirOwner(before: Value, after: Value, node: Value, i: nat)
    requires Included(after, before)
    requires Reaches(after, node) && node.Object? && i in Table(node.fields) && node.fields[i].key == RESOURCES
    ensures exists origin :: Reaches(before, origin) && SameResources(origin, node.fields[i].child.raw, Owner(node.fields))
  {
    var id := IdentityOf(node.fields, i);
    CarrierIsCounted(after, node, id);
    var origin := CarrierOf(before, id);
    var j :| j in Table(origin.fields) && IsProtected(origin.fields[j].key) && IdentityOf(origin.fields, j) == id;
  }

  // ---- Exchanging protected values ----

  /** The member a name stands for. */
  function Find(fields: seq<Field>, key: string): (r: Option<nat>)
    ensures r.Some? ==> r.value in Table(fields) && fields[r.value].key == key
    ensures r.None? ==> forall i :: 0 <= i < |fields| ==> fields[i].key != key
    ensures forall i :: i in Table(fields) && fields[i].key == key ==> r == Some(i)
  {
    if fields == [] then None
    else
      var last := |fields| - 1;
      if fields[last].key == key then Some(last) else Find(fields[..last], key)
  }

  /** The object with another value in one member. */
  function WithChild(v: Value, i: nat, child: Value, raw: string): (w: Value)
    requires v.Object? && i < |v.fields|
    ensures w.Object? && |w.fields| == |v.fields| && Table(w.fields) == Table(v.fields)
  {
    var fields := v.fields[i := v.fields[i].(child := child)];
    assert forall k :: 0 <= k < |fields| ==> fields[k].key == v.fields[k].key;
    assert forall k: nat :: k < |fields| ==> IsLast(fields, k) == IsLast(v.fields, k);
    Object(raw, fields)
  }

  /** The spelling of the resources an object has, if any. */
  function ResourcesOf(fields: seq<Field>): Option<string> {
    Spelling(fields, RESOURCES)
  }

  function ResourcesOfOwner(resources: Option<string>, owner: map<string, string>): multiset<Identity> {
    match resources case None => multiset{} case Some(raw) => multiset{Identity(RESOURCES, raw, Some(owner))}
  }

  /** The identities in which a protected value takes part: its own, and that of the resources it owns. */
  function Traded(key: string, raw: string, owner: map<string, string>, resources: Option<string>): multiset<Identity> {
    multiset{Identity(key, raw, if key == RESOURCES then Some(owner) else None)} +
    if OwnsData(key) then ResourcesOfOwner(resources, owner) else multiset{}
  }

  function Touched(fields: seq<Field>, i: nat): multiset<Identity>
    requires i < |fields|
  {
    Traded(fields[i].key, fields[i].child.raw, Owner(fields), ResourcesOf(fields))
  }

  lemma {:induction false} SameElsewhere(v: Value, w: Value, chosen: set<nat>, n: nat, id: Identity)
    requires v.Object? && w.Object? && n <= |v.fields| == |w.fields|
    requires forall k :: k in chosen && k < |v.fields| ==> CountField(w, k, id) == CountField(v, k, id)
    ensures CountIn(w, chosen, n, id) == CountIn(v, chosen, n, id)
    decreases n
  {
    if n > 0 { SameElsewhere(v, w, chosen, n - 1, id); }
  }

  /** The count of an object, with one or two of its members apart. */
  lemma OneApart(v: Value, i: nat, id: Identity)
    requires v.Object? && i in Table(v.fields)
    ensures Count(v, id) == CountIn(v, Table(v.fields) - {i}, |v.fields|, id) + CountField(v, i, id)
  {
    ChooseOne(v, Table(v.fields) - {i}, i, |v.fields|, id);
    assert Table(v.fields) - {i} + {i} == Table(v.fields);
  }

  lemma TwoApart(v: Value, i: nat, j: nat, id: Identity)
    requires v.Object? && i in Table(v.fields) && j in Table(v.fields) && i != j
    ensures Count(v, id) == CountIn(v, Table(v.fields) - {i} - {j}, |v.fields|, id) + CountField(v, i, id) + CountField(v, j, id)
  {
    OneApart(v, i, id);
    ChooseOne(v, Table(v.fields) - {i} - {j}, j, |v.fields|, id);
    assert Table(v.fields) - {i} - {j} + {j} == Table(v.fields) - {i};
  }

  lemma FindAfterChange(v: Value, i: nat, child: Value, raw: string, key: string)
    requires v.Object? && i < |v.fields|
    ensures Find(WithChild(v, i, child, raw).fields, key) == Find(v.fields, key)
  {
    var w := WithChild(v, i, child, raw);
    assert forall k :: 0 <= k < |v.fields| ==> w.fields[k].key == v.fields[k].key;
    match Find(v.fields, key)
    case Some(r) => assert r in Table(w.fields) && w.fields[r].key == key;
    case None =>
  }

  function OwnerAfter(key: string, raw: string, owner: map<string, string>): map<string, string> {
    if OwnsData(key) then owner[key := raw] else owner
  }

  lemma FieldAfter(v: Value, i: nat, child: Value, raw: string, k: nat)
    requires v.Object? && i < |v.fields| && k < |v.fields|
    ensures WithChild(v, i, child, raw).fields[k] == if k == i then v.fields[i].(child := child) else v.fields[k]
  {
  }

  /** What a name is found to spell. */
  function Spelling(fields: seq<Field>, key: string): Option<string> {
    match Find(fields, key) case None => None case Some(k) => Some(fields[k].child.raw)
  }

  lemma OwnedByName(fields: seq<Field>, key: string)
    ensures key in Owner(fields) <==> OwnsData(key) && Spelling(fields, key).Some?
    ensures key in Owner(fields) ==> Spelling(fields, key) == Some(Owner(fields)[key])
  {
  }

  lemma SpellingAfter(v: Value, i: nat, child: Value, raw: string, key: string)
    requires v.Object? && i in Table(v.fields)
    ensures Spelling(WithChild(v, i, child, raw).fields, key) ==
            if key == v.fields[i].key then Some(child.raw) else Spelling(v.fields, key)
  {
    FindAfterChange(v, i, child, raw, key);
    var found := Find(v.fields, key);
    if found.Some? {
      FieldAfter(v, i, child, raw, found.value);
    }
    assert key == v.fields[i].key ==> found == Some(i);
  }

  lemma NameAfter(changed: string, raw: string, owner: map<string, string>, key: string)
    ensures key in OwnerAfter(changed, raw, owner) <==> key in owner || (OwnsData(changed) && key == changed)
    ensures key in OwnerAfter(changed, raw, owner) ==>
      OwnerAfter(changed, raw, owner)[key] == if OwnsData(changed) && key == changed then raw else owner[key]
  {
  }

  lemma OwnedNameAfter(v: Value, i: nat, child: Value, raw: string, key: string)
    requires v.Object? && i in Table(v.fields)
    ensures
      var next, after := Owner(WithChild(v, i, child, raw).fields), OwnerAfter(v.fields[i].key, child.raw, Owner(v.fields));
      (key in next <==> key in after) && (key in next ==> next[key] == after[key])
  {
    OwnedByName(v.fields, key);
    OwnedByName(WithChild(v, i, child, raw).fields, key);
    SpellingAfter(v, i, child, raw, key);
    NameAfter(v.fields[i].key, child.raw, Owner(v.fields), key);
  }

  lemma SameMap(a: map<string, string>, b: map<string, string>)
    requires forall key {:trigger key in a} :: (key in a <==> key in b) && (key in a ==> a[key] == b[key])
    ensures a == b
  {
    assert forall key :: key in b ==> key in a;
  }

  /** The owner changes only in a member that belongs to it. */
  lemma OwnerWithChild(v: Value, i: nat, child: Value, raw: string)
    requires v.Object? && i in Table(v.fields)
    ensures Owner(WithChild(v, i, child, raw).fields) == OwnerAfter(v.fields[i].key, child.raw, Owner(v.fields))
  {
    var next, after := Owner(WithChild(v, i, child, raw).fields), OwnerAfter(v.fields[i].key, child.raw, Owner(v.fields));
    forall key: string
      ensures (key in next <==> key in after) && (key in next ==> next[key] == after[key])
    {
      OwnedNameAfter(v, i, child, raw, key);
    }
    SameMap(next, after);
  }

  lemma OtherFieldStays(v: Value, i: nat, child: Value, raw: string, k: nat, id: Identity)
    requires v.Object? && i in Table(v.fields) && k in Table(v.fields) && k != i
    requires OwnsData(v.fields[i].key) ==> v.fields[k].key != RESOURCES
    ensures CountField(WithChild(v, i, child, raw), k, id) == CountField(v, k, id)
  {
    OwnerWithChild(v, i, child, raw);
  }

  lemma ProtectedField(v: Value, i: nat, id: Identity)
    requires v.Object? && i < |v.fields| && IsProtected(v.fields[i].key)
    ensures CountField(v, i, id) == multiset{IdentityOf(v.fields, i)}[id]
  {
  }

  /** How the counts of an object change with one of its protected values. */
  lemma ChangedCounts(v: Value, i: nat, child: Value, raw: string, id: Identity)
    requires v.Object? && i in Table(v.fields) && IsProtected(v.fields[i].key)
    ensures
      var w := WithChild(v, i, child, raw);
      Count(w, id) + Touched(v.fields, i)[id] == Count(v, id) + Touched(w.fields, i)[id]
  {
    var w, resources := WithChild(v, i, child, raw), Find(v.fields, RESOURCES);
    FindAfterChange(v, i, child, raw, RESOURCES);
    ProtectedField(v, i, id);
    ProtectedField(w, i, id);
    forall k | k in Table(v.fields) - {i} && (OwnsData(v.fields[i].key) ==> v.fields[k].key != RESOURCES)
      ensures CountField(w, k, id) == CountField(v, k, id)
    {
      OtherFieldStays(v, i, child, raw, k, id);
    }
    if OwnsData(v.fields[i].key) && resources.Some? {
      var r := resources.value;
      ProtectedField(v, r, id);
      ProtectedField(w, r, id);
      TwoApart(v, i, r, id);
      TwoApart(w, i, r, id);
      SameElsewhere(v, w, Table(v.fields) - {i} - {r}, |v.fields|, id);
    } else {
      OneApart(v, i, id);
      OneApart(w, i, id);
      SameElsewhere(v, w, Table(v.fields) - {i}, |v.fields|, id);
    }
  }

  lemma {:induction false} ReplacedItem(v: Value, w: Value, m: nat, n: nat, id: Identity)
    requires v.List? && w.List? && m < |v.items| && n <= |v.items|
    requires |w.items| == |v.items| && forall k :: 0 <= k < |v.items| && k != m ==> w.items[k] == v.items[k]
    ensures CountItems(w, n, id) + (if m < n then Count(v.items[m], id) else 0) ==
            CountItems(v, n, id) + if m < n then Count(w.items[m], id) else 0
    decreases n
  {
    if n > 0 { ReplacedItem(v, w, m, n - 1, id); }
  }

  /** Two members of two items of a list that stand for the same protected name. */
  predicate MayMeet(items: seq<Value>, m: nat, i: nat, n: nat, j: nat) {
    && m < |items| && n < |items| && m != n && items[m].Object? && items[n].Object?
    && i in Table(items[m].fields) && j in Table(items[n].fields)
    && IsProtected(items[m].fields[i].key) && items[n].fields[j].key == items[m].fields[i].key
  }

  /** The two exchange the values of these members, whatever the spelling of the whole becomes. */
  function Exchanged(items: seq<Value>, m: nat, i: nat, n: nat, j: nat, raw: string): seq<Value>
    requires MayMeet(items, m, i, n, j)
  {
    var a, b := items[m], items[n];
    items[m := WithChild(a, i, b.fields[j].child, raw)][n := WithChild(b, j, a.fields[i].child, raw)]
  }

  /** The exchange trades exactly the touched identities. */
  lemma ExchangeCounts(items: seq<Value>, m: nat, i: nat, n: nat, j: nat, raw: string, id: Identity)
    requires MayMeet(items, m, i, n, j)
    ensures
      var next := Exchanged(items, m, i, n, j, raw);
      Count(List(raw, next), id) + (Touched(items[m].fields, i) + Touched(items[n].fields, j))[id] ==
      Count(List("", items), id) + (Touched(next[m].fields, i) + Touched(next[n].fields, j))[id]
  {
    var a, b := items[m], items[n];
    var half := items[m := WithChild(a, i, b.fields[j].child, raw)];
    var next := Exchanged(items, m, i, n, j, raw);
    ReplacedItem(List("", items), List("", half), m, |items|, id);
    ReplacedItem(List("", half), List(raw, next), n, |items|, id);
    ChangedCounts(a, i, b.fields[j].child, raw, id);
    ChangedCounts(b, j, a.fields[i].child, raw, id);
  }

  /** When two values of a protected name may be exchanged between owners. Source and native always may, resources only
      between equal owners. What belongs to an owner may if neither has resources, or if both have the same and the
      owners are equal in all else. */
  predicate MayExchange(key: string, x: string, y: string, a: map<string, string>, b: map<string, string>,
                        ra: Option<string>, rb: Option<string>) {
    || x == y
    || (key == RESOURCES && a == b)
    || (key != RESOURCES && !OwnsData(key))
    || (OwnsData(key) && ra == rb && (ra.None? || a - {key} == b - {key}))
  }

  lemma TouchedAfter(v: Value, i: nat, child: Value, raw: string)
    requires v.Object? && i in Table(v.fields) && IsProtected(v.fields[i].key)
    ensures
      var key, owner := v.fields[i].key, Owner(v.fields);
      Touched(WithChild(v, i, child, raw).fields, i) ==
      Traded(key, child.raw, OwnerAfter(key, child.raw, owner), ResourcesOf(v.fields))
  {
    OwnerWithChild(v, i, child, raw);
    FindAfterChange(v, i, child, raw, RESOURCES);
  }

  lemma EqualButOne(a: map<string, string>, b: map<string, string>, key: string)
    requires key in a && key in b
    ensures a - {key} == b - {key} <==> a[key := b[key]] == b
    ensures a - {key} == b - {key} <==> b[key := a[key]] == a
  {
    if a - {key} == b - {key} {
      forall k | k != key ensures k in a <==> k in b { assert k in a - {key} <==> k in b - {key}; }
      forall k | k in a && k != key ensures a[k] == b[k] { assert (a - {key})[k] == (b - {key})[k]; }
    }
    if a[key := b[key]] == b {
      forall k | k in a && k != key ensures k in b && a[k] == b[k] { assert a[key := b[key]][k] == a[k]; }
    }
    if b[key := a[key]] == a {
      forall k | k in b && k != key ensures k in a && a[k] == b[k] { assert b[key := a[key]][k] == b[k]; }
    }
  }

  lemma ResourcesTrade(x: string, y: string, a: map<string, string>, b: map<string, string>, ra: Option<string>, rb: Option<string>)
    ensures
      Traded(RESOURCES, y, a, ra) + Traded(RESOURCES, x, b, rb) <= Traded(RESOURCES, x, a, ra) + Traded(RESOURCES, y, b, rb)
      <==> x == y || a == b
  {
    NoneAside(multiset{Identity(RESOURCES, x, Some(a))});
    NoneAside(multiset{Identity(RESOURCES, y, Some(a))});
    NoneAside(multiset{Identity(RESOURCES, x, Some(b))});
    NoneAside(multiset{Identity(RESOURCES, y, Some(b))});
    TwoForTwo(Identity(RESOURCES, y, Some(a)), Identity(RESOURCES, x, Some(b)),
              Identity(RESOURCES, x, Some(a)), Identity(RESOURCES, y, Some(b)));
  }

  /** Source and native are compared by name and spelling only. */
  lemma FreeTrade(key: string, x: string, y: string, a: map<string, string>, b: map<string, string>, ra: Option<string>, rb: Option<string>)
    requires key != RESOURCES && !OwnsData(key)
    ensures Traded(key, y, a, ra) + Traded(key, x, b, rb) <= Traded(key, x, a, ra) + Traded(key, y, b, rb)
  {
    NoneAside(multiset{Identity(key, x, None)});
    NoneAside(multiset{Identity(key, y, None)});
    TwoForTwo(Identity(key, y, None), Identity(key, x, None), Identity(key, x, None), Identity(key, y, None));
  }

  /** What is on both sides does not matter. */
  lemma TradeRest(x: multiset<Identity>, y: multiset<Identity>, a: multiset<Identity>, b: multiset<Identity>,
                  c: multiset<Identity>, d: multiset<Identity>)
    ensures (y + a) + (x + b) <= (x + c) + (y + d) <==> a + b <= c + d
  {
    var left, right := (y + a) + (x + b), (x + c) + (y + d);
    if left <= right {
      forall id ensures (a + b)[id] <= (c + d)[id] {
        assert left[id] <= right[id];
      }
    }
    if a + b <= c + d {
      forall id ensures left[id] <= right[id] {
        assert (a + b)[id] <= (c + d)[id];
      }
    }
  }

  /** Two identities for two others. */
  lemma TwoForTwo(a2: Identity, b2: Identity, a: Identity, b: Identity)
    ensures multiset{a2} + multiset{b2} <= multiset{a} + multiset{b} <==> (a2 == a && b2 == b) || (a2 == b && b2 == a)
  {
    if multiset{a2} + multiset{b2} <= multiset{a} + multiset{b} {
      assert (multiset{a2} + multiset{b2})[a2] <= (multiset{a} + multiset{b})[a2];
      assert (multiset{a2} + multiset{b2})[b2] <= (multiset{a} + multiset{b})[b2];
    }
  }

  lemma OneForOne(a2: Identity, a: Identity)
    ensures multiset{a2} <= multiset{a} <==> a2 == a
  {
    if multiset{a2} <= multiset{a} {
      assert multiset{a2}[a2] <= multiset{a}[a2];
    }
  }

  lemma NoneAside(s: multiset<Identity>)
    ensures s + multiset{} == s && multiset{} + s == s
  {
  }

  /** The resources of two owners that change. */
  lemma OwnersTrade(ra: Option<string>, rb: Option<string>, a: map<string, string>, b: map<string, string>,
                    a2: map<string, string>, b2: map<string, string>)
    requires a2 != a && b2 != b && (a2 == b <==> b2 == a)
    ensures
      ResourcesOfOwner(ra, a2) + ResourcesOfOwner(rb, b2) <= ResourcesOfOwner(ra, a) + ResourcesOfOwner(rb, b)
      <==> ra == rb && (ra.None? || a2 == b)
  {
    if ra.Some? && rb.Some? {
      TwoForTwo(Identity(RESOURCES, ra.value, Some(a2)), Identity(RESOURCES, rb.value, Some(b2)),
                Identity(RESOURCES, ra.value, Some(a)), Identity(RESOURCES, rb.value, Some(b)));
    } else if ra.Some? {
      OneForOne(Identity(RESOURCES, ra.value, Some(a2)), Identity(RESOURCES, ra.value, Some(a)));
      NoneAside(ResourcesOfOwner(ra, a2));
      NoneAside(ResourcesOfOwner(ra, a));
    } else if rb.Some? {
      OneForOne(Identity(RESOURCES, rb.value, Some(b2)), Identity(RESOURCES, rb.value, Some(b)));
      NoneAside(ResourcesOfOwner(rb, b2));
      NoneAside(ResourcesOfOwner(rb, b));
    }
  }

  lemma ChangedOwners(key: string, x: string, y: string, a: map<string, string>, b: map<string, string>)
    requires OwnsData(key) && key in a && key in b && a[key] == x && b[key] == y
    ensures
      var a2, b2 := OwnerAfter(key, y, a), OwnerAfter(key, x, b);
      if x == y then a2 == a && b2 == b
      else a2 != a && b2 != b && (a2 == b <==> b2 == a) && (a2 == b <==> a - {key} == b - {key})
  {
    EqualButOne(a, b, key);
    if x != y {
      assert OwnerAfter(key, y, a)[key] != a[key] && OwnerAfter(key, x, b)[key] != b[key];
    }
  }

  /** Data of an owner carries its own spelling along; what may be rebound are the resources beside it. */
  lemma OwnedTrade(key: string, x: string, y: string, a: map<string, string>, b: map<string, string>,
                   ra: Option<string>, rb: Option<string>)
    requires OwnsData(key) && key in a && key in b && a[key] == x && b[key] == y
    ensures
      Traded(key, y, OwnerAfter(key, y, a), ra) + Traded(key, x, OwnerAfter(key, x, b), rb) <=
      Traded(key, x, a, ra) + Traded(key, y, b, rb)
      <==> MayExchange(key, x, y, a, b, ra, rb)
  {
    var a2, b2 := OwnerAfter(key, y, a), OwnerAfter(key, x, b);
    TradeRest(multiset{Identity(key, x, None)}, multiset{Identity(key, y, None)}, ResourcesOfOwner(ra, a2), ResourcesOfOwner(rb, b2),
              ResourcesOfOwner(ra, a), ResourcesOfOwner(rb, b));
    ChangedOwners(key, x, y, a, b);
    if x != y {
      OwnersTrade(ra, rb, a, b, a2, b2);
    }
  }

  lemma Trade(key: string, x: string, y: string, a: map<string, string>, b: map<string, string>,
              ra: Option<string>, rb: Option<string>)
    requires OwnsData(key) ==> key in a && key in b && a[key] == x && b[key] == y
    ensures
      Traded(key, y, OwnerAfter(key, y, a), ra) + Traded(key, x, OwnerAfter(key, x, b), rb) <=
      Traded(key, x, a, ra) + Traded(key, y, b, rb)
      <==> MayExchange(key, x, y, a, b, ra, rb)
  {
    if key == RESOURCES {
      ResourcesTrade(x, y, a, b, ra, rb);
    } else if OwnsData(key) {
      OwnedTrade(key, x, y, a, b, ra, rb);
    } else {
      FreeTrade(key, x, y, a, b, ra, rb);
    }
  }

  /** Two values whose counts differ by a trade of identities. */
  lemma IncludedIff(before: Value, after: Value, gone: multiset<Identity>, come: multiset<Identity>)
    requires forall id {:trigger Count(after, id)} :: Count(after, id) + gone[id] == Count(before, id) + come[id]
    ensures Included(after, before) <==> come <= gone
  {
    if Included(after, before) {
      forall id ensures come[id] <= gone[id] {
        assert Count(after, id) <= Count(before, id);
      }
    }
    if come <= gone {
      forall id {:trigger Count(after, id)} ensures Count(after, id) <= Count(before, id) {
        assert come[id] <= gone[id];
      }
    }
  }

  lemma IncludedIffTraded(items: seq<Value>, m: nat, i: nat, n: nat, j: nat, raw: string)
    requires MayMeet(items, m, i, n, j)
    ensures
      var next := Exchanged(items, m, i, n, j, raw);
      Included(List(raw, next), List("", items)) <==>
      Touched(next[m].fields, i) + Touched(next[n].fields, j) <= Touched(items[m].fields, i) + Touched(items[n].fields, j)
  {
    var next := Exchanged(items, m, i, n, j, raw);
    var gone, come := Touched(items[m].fields, i) + Touched(items[n].fields, j), Touched(next[m].fields, i) + Touched(next[n].fields, j);
    forall id {:trigger Count(List(raw, next), id)}
      ensures Count(List(raw, next), id) + gone[id] == Count(List("", items), id) + come[id]
    {
      ExchangeCounts(items, m, i, n, j, raw, id);
    }
    IncludedIff(List("", items), List(raw, next), gone, come);
  }

  /** Main result: two objects in a list may exchange the values of a protected name exactly as `MayExchange` says, for any
      other members, protected, unprotected or nested, and any other items. */
  lemma ExchangeIsAcceptedIff(items: seq<Value>, m: nat, i: nat, n: nat, j: nat, raw: string)
    requires MayMeet(items, m, i, n, j)
    ensures
      var a, b := items[m].fields, items[n].fields;
      Included(List(raw, Exchanged(items, m, i, n, j, raw)), List("", items)) <==>
      MayExchange(a[i].key, a[i].child.raw, b[j].child.raw, Owner(a), Owner(b), ResourcesOf(a), ResourcesOf(b))
  {
    var a, b := items[m].fields, items[n].fields;
    IncludedIffTraded(items, m, i, n, j, raw);
    TouchedAfter(items[m], i, b[j].child, raw);
    TouchedAfter(items[n], j, a[i].child, raw);
    if OwnsData(a[i].key) {
      OwnedByName(a, a[i].key);
      OwnedByName(b, b[j].key);
      assert Find(a, a[i].key) == Some(i) && Find(b, b[j].key) == Some(j);
    }
    Trade(a[i].key, a[i].child.raw, b[j].child.raw, Owner(a), Owner(b), ResourcesOf(a), ResourcesOf(b));
  }

  /** A node with unprotected data, children and one protected member. */
  function Node(payload: string, children: Value, key: string, raw: string): Value {
    Object("", [Field("payload", Scalar(payload)), Field("children", children), Field(key, Scalar(raw))])
  }

  lemma NodeOwner(payload: string, children: Value, key: string, raw: string)
    requires IsProtected(key)
    ensures
      var fields := Node(payload, children, key, raw).fields;
      && Table(fields) == {0, 1, 2} && (key != RESOURCES ==> ResourcesOf(fields) == None)
      && (key == RESOURCES ==> Owner(fields) == map["payload" := payload])
  {
    var fields := Node(payload, children, key, raw).fields;
    assert fields[0].key == "payload" && fields[1].key == "children" && fields[2].key == key;
    assert key != "payload" && key != "children";
    assert IsLast(fields, 0) && IsLast(fields, 1) && IsLast(fields, 2);
  }

  lemma NodeWith(payload: string, children: Value, key: string, raw: string, other: string)
    ensures WithChild(Node(payload, children, key, raw), 2, Scalar(other), "") == Node(payload, children, key, other)
  {
    assert Node(payload, children, key, raw).fields[2 := Field(key, Scalar(other))] == Node(payload, children, key, other).fields;
  }

  lemma SwapNodes(key: string, p: string, q: string, c: Value, d: Value, x: string, y: string)
    requires IsProtected(key)
    ensures
      var items := [Node(p, c, key, x), Node(q, d, key, y)];
      MayMeet(items, 0, 2, 1, 2) && Exchanged(items, 0, 2, 1, 2, "") == [Node(p, c, key, y), Node(q, d, key, x)]
  {
    NodeOwner(p, c, key, x);
    NodeOwner(q, d, key, y);
    NodeWith(p, c, key, x, y);
    NodeWith(q, d, key, y, x);
  }

  lemma NodesMayExchange(key: string, p: string, q: string, c: Value, d: Value, x: string, y: string)
    requires IsProtected(key) && x != y
    ensures
      var a, b := Node(p, c, key, x).fields, Node(q, d, key, y).fields;
      MayExchange(key, x, y, Owner(a), Owner(b), ResourcesOf(a), ResourcesOf(b)) <==> key != RESOURCES || p == q
  {
    NodeOwner(p, c, key, x);
    NodeOwner(q, d, key, y);
    if key == RESOURCES {
      assert map["payload" := p]["payload"] == p && map["payload" := q]["payload"] == q;
    }
  }

  /** Nodes with one protected member: their values may be exchanged unless they are resources of nodes that differ in
      what is compared, which children are not. */
  lemma ExchangeIsAcceptedUnlessOwned(key: string, p: string, q: string, c: Value, d: Value, x: string, y: string)
    requires IsProtected(key) && x != y
    ensures
      var original := List("", [Node(p, c, key, x), Node(q, d, key, y)]);
      var exchanged := List("", [Node(p, c, key, y), Node(q, d, key, x)]);
      original != exchanged && (Included(exchanged, original) <==> key != RESOURCES || p == q)
  {
    var items := [Node(p, c, key, x), Node(q, d, key, y)];
    SwapNodes(key, p, q, c, d, x, y);
    ExchangeIsAcceptedIff(items, 0, 2, 1, 2, "");
    NodesMayExchange(key, p, q, c, d, x, y);
    assert items[0].fields[2].child.raw == x && items[1].fields[2].child.raw == y && items[0].fields[2].key == key;
    assert [Node(p, c, key, y), Node(q, d, key, x)][0].fields[2].child.raw == y;
  }

  lemma {:induction false} MoreItems(v: Value, n: nat, m: nat, id: Identity)
    requires v.List? && n <= m <= |v.items|
    ensures CountItems(v, n, id) <= CountItems(v, m, id)
    decreases m
  {
    if n < m { MoreItems(v, n, m - 1, id); }
  }

  function At(allowed: map<Identity, nat>, id: Identity): nat {
    if id in allowed then allowed[id] else 0
  }

  function Moved(count: int, checking: bool, amount: int): int {
    if checking then count - amount else count + amount
  }

  /** The counting table of one check. */
  class Check {
    var allowed: map<Identity, nat>

    constructor ()
      ensures allowed == map[]
    {
      allowed := map[];
    }

    method Note(id: Identity, checking: bool) returns (ok: bool)
      modifies this
      ensures ok == (!checking || At(old(allowed), id) > 0)
      ensures ok ==> forall other {:trigger At(allowed, other)} ::
        At(allowed, other) == Moved(At(old(allowed), other), checking, if other == id then 1 else 0)
      ensures !ok ==> allowed == old(allowed)
    {
      if checking && At(allowed, id) == 0 { return false; }
      allowed := allowed[id := if checking then At(allowed, id) - 1 else At(allowed, id) + 1];
      return true;
    }

    /** Walks a value. Counting never fails; checking fails exactly when some identity occurs more often than allowed. */
    method Collect(v: Value, checking: bool) returns (ok: bool)
      modifies this
      ensures !checking ==> ok
      ensures ok ==> forall id {:trigger At(allowed, id)} :: At(allowed, id) == Moved(At(old(allowed), id), checking, Count(v, id))
      ensures !ok ==> exists id :: Count(v, id) > At(old(allowed), id)
      decreases v, 2
    {
      match v
      case Scalar(_) => return true;
      case List(_, _) => ok := CollectItems(v, checking);
      case Object(_, _) => ok := CollectFields(v, checking);
    }

    method CollectItems(v: Value, checking: bool) returns (ok: bool)
      requires v.List?
      modifies this
      ensures !checking ==> ok
      ensures ok ==> forall id {:trigger At(allowed, id)} :: At(allowed, id) == Moved(At(old(allowed), id), checking, Count(v, id))
      ensures !ok ==> exists id :: Count(v, id) > At(old(allowed), id)
      decreases v, 1
    {
      for n := 0 to |v.items|
        invariant forall id {:trigger At(allowed, id)} ::
          At(allowed, id) == Moved(At(old(allowed), id), checking, CountItems(v, n, id))
      {
        ghost var here := allowed;
        ok := Collect(v.items[n], checking);
        if !ok {
          ghost var id :| Count(v.items[n], id) > At(here, id);
          MoreItems(v, n + 1, |v.items|, id);
          assert Count(v, id) > At(old(allowed), id);
          return;
        }
      }
      return true;
    }

    /** The members of an object, in whatever order the table yields them. */
    method CollectFields(v: Value, checking: bool) returns (ok: bool)
      requires v.Object?
      modifies this
      ensures !checking ==> ok
      ensures ok ==> forall id {:trigger At(allowed, id)} :: At(allowed, id) == Moved(At(old(allowed), id), checking, Count(v, id))
      ensures !ok ==> exists id :: Count(v, id) > At(old(allowed), id)
      decreases v, 1
    {
      var todo := Table(v.fields);
      ghost var done: set<nat> := {};
      forall id { NoneChosen(v, |v.fields|, id); }
      while todo != {}
        invariant done + todo == Table(v.fields) && done !! todo
        invariant forall id {:trigger At(allowed, id)} ::
          At(allowed, id) == Moved(At(old(allowed), id), checking, CountIn(v, done, |v.fields|, id))
        decreases todo
      {
        var i :| i in todo;
        ghost var here := allowed;
        ok := VisitField(v, i, checking);
        forall id { ChooseOne(v, done, i, |v.fields|, id); }
        if !ok {
          ghost var id :| CountField(v, i, id) > At(here, id);
          FewerCountLess(v, done + {i}, Table(v.fields), |v.fields|, id);
          assert Count(v, id) > At(old(allowed), id);
          return;
        }
        todo, done := todo - {i}, done + {i};
      }
      assert done == Table(v.fields);
      return true;
    }

    method VisitField(v: Value, i: nat, checking: bool) returns (ok: bool)
      requires v.Object? && i < |v.fields|
      modifies this
      ensures !checking ==> ok
      ensures ok ==> forall id {:trigger At(allowed, id)} ::
        At(allowed, id) == Moved(At(old(allowed), id), checking, CountField(v, i, id))
      ensures !ok ==> exists id :: CountField(v, i, id) > At(old(allowed), id)
      decreases v, 0
    {
      if IsProtected(v.fields[i].key) {
        var id := IdentityOf(v.fields, i);
        ok := Note(id, checking);
        assert CountField(v, i, id) == 1;
      } else {
        ok := Collect(v.fields[i].child, checking);
        if !ok {
          ghost var id :| Count(v.fields[i].child, id) > At(old(allowed), id);
          assert CountField(v, i, id) > At(old(allowed), id);
        }
      }
    }
  }

  /** Accepts a change exactly when it adds no protected identity. */
  method ProtectConversionProvenance(before: Value, after: Value) returns (ok: bool)
    ensures ok <==> Included(after, before)
  {
    if before == after { return true; }
    var check := new Check();
    var counted := check.Collect(before, false);
    ghost var budget := check.allowed;
    ok := check.Collect(after, true);
    forall id {:trigger Count(after, id)} ensures At(budget, id) == Count(before, id) {
      assert At(map[], id) == 0;
    }
    if ok {
      forall id {:trigger Count(after, id)} ensures Count(after, id) <= Count(before, id) {
        assert At(check.allowed, id) == At(budget, id) - Count(after, id);
      }
    } else {
      ghost var id :| Count(after, id) > At(budget, id);
      assert Count(after, id) > Count(before, id);
    }
  }

  /** An authored whole-value rule: a new value, or its own error. */
  type Rule = Value -> Option<Value>

  /** Applies authored rules in order; each change is checked against the value it started from. */
  method ApplyRules(rules: seq<Rule>, input: Value) returns (output: Option<Value>)
    ensures output == Applied(rules, input)
  {
    var value := input;
    for i := 0 to |rules|
      invariant Applied(rules, input) == Applied(rules[i..], value)
    {
      assert rules[i..][1..] == rules[i + 1..];
      var changed := rules[i](value);
      if changed.None? { return None; }
      var ok := ProtectConversionProvenance(value, changed.value);
      if !ok { return None; }
      value := changed.value;
    }
    return Some(value);
  }

  ghost function Applied(rules: seq<Rule>, value: Value): Option<Value> {
    if rules == [] then Some(value)
    else
      var changed := rules[0](value);
      if changed.Some? && Included(changed.value, value) then Applied(rules[1..], changed.value) else None
  }

  /** No sequence of authored rules adds protected data, or parts resources from their owner. */
  lemma {:induction false} RulesCannotAddProtectedData(rules: seq<Rule>, input: Value)
    requires Applied(rules, input).Some?
    ensures Included(Applied(rules, input).value, input)
    ensures forall id {:trigger Occurs(input, id)} :: Occurs(Applied(rules, input).value, id) ==> Occurs(input, id)
    decreases |rules|
  {
    if rules != [] {
      var changed := rules[0](input).value;
      RulesCannotAddProtectedData(rules[1..], changed);
      forall id {:trigger Count(Applied(rules, input).value, id)}
        ensures Count(Applied(rules, input).value, id) <= Count(input, id)
      {
        assert Count(Applied(rules, input).value, id) <= Count(changed, id) <= Count(input, id);
      }
    }
    var output := Applied(rules, input).value;
    forall id ensures Occurs(output, id) ==> Occurs(input, id) {
      CountedMeansOccurs(input, id);
      CountedMeansOccurs(output, id);
      assert Count(output, id) <= Count(input, id);
    }
  }
}
