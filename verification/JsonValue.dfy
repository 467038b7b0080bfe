/** JSON values as the contract checker sees them, and when two are the same (contracts/mes/v1/validate.py,
    `_equal`). */
module JsonValue {
  datatype Member = Member(key: string, value: Json)

  /** A parsed value: integers and floats are told apart, members keep their order. */
  datatype Json =
    | Null
    | Bool(b: bool)
    | Int(i: int)
    | Float(x: real)
    | Str(text: string)
    | Arr(elements: seq<Json>)
    | Obj(members: seq<Member>)

  predicate HasKey(members: seq<Member>, key: string) {
    exists i :: 0 <= i < |members| && members[i].key == key
  }

  function Index(members: seq<Member>, key: string): (i: nat)
    requires HasKey(members, key)
    ensures i < |members| && members[i].key == key
  {
    if members[0].key == key then 0 else Index(members[1..], key) + 1
  }

  /** No key appears twice (the decoder refuses such objects), here and inside. */
  predicate Proper(j: Json) {
    match j
    case Arr(elements) => forall i :: 0 <= i < |elements| ==> Proper(elements[i])
    case Obj(members) =>
      && (forall i, k :: 0 <= i < k < |members| ==> members[i].key != members[k].key)
      && (forall i :: 0 <= i < |members| ==> Proper(members[i].value))
    case _ => true
  }

  predicate IsNumber(j: Json) { j.Int? || j.Float? }

  function Number(j: Json): real
    requires IsNumber(j)
  {
    if j.Int? then j.i as real else j.x
  }

  function Keys(members: seq<Member>): set<string> {
    set i | 0 <= i < |members| :: members[i].key
  }

  predicate Equal(a: Json, b: Json)
    decreases a
  {
    if a.Bool? || b.Bool? then a == b
    else if IsNumber(a) && IsNumber(b) then Number(a) == Number(b)
    else if a.Arr? && b.Arr? then
      |a.elements| == |b.elements| && forall i :: 0 <= i < |a.elements| ==> Equal(a.elements[i], b.elements[i])
    else if a.Obj? && b.Obj? then
      && Keys(a.members) == Keys(b.members)
      && forall i :: 0 <= i < |a.members| && HasKey(b.members, a.members[i].key) ==>
           Equal(a.members[i].value, b.members[Index(b.members, a.members[i].key)].value)
    else a == b
  }

  // ------------------------------------------------------------------
  // The value a text stands for (JSON Schema Core, section 4.2.2)
  // ------------------------------------------------------------------

  /** Numbers by their mathematical value, objects as unordered maps. */
  datatype Instance =
    | INull
    | IBool(b: bool)
    | INumber(x: real)
    | IString(text: string)
    | IArray(elements: seq<Instance>)
    | IObject(members: map<string, Instance>)

  function Meaning(j: Json): Instance {
    match j
    case Null => INull
    case Bool(b) => IBool(b)
    case Int(i) => INumber(i as real)
    case Float(x) => INumber(x)
    case Str(text) => IString(text)
    case Arr(elements) => IArray(seq(|elements|, i requires 0 <= i < |elements| => Meaning(elements[i])))
    case Obj(members) =>
      IObject(map k | k in Keys(members) :: assert HasKey(members, k); Meaning(members[Index(members, k)].value))
  }

  lemma {:induction false} EqualIsSameMeaning(a: Json, b: Json)
    requires Proper(a) && Proper(b)
    ensures Equal(a, b) <==> Meaning(a) == Meaning(b)
    decreases a
  {
    if a.Arr? && b.Arr? {
      ArraysEqual(a, b);
    } else if a.Obj? && b.Obj? {
      ObjectsEqual(a, b);
    }
  }

  lemma {:induction false} ArraysEqual(a: Json, b: Json)
    requires Proper(a) && Proper(b) && a.Arr? && b.Arr?
    ensures Equal(a, b) <==> Meaning(a) == Meaning(b)
    decreases a, 0
  {
    if |a.elements| == |b.elements| {
      forall i | 0 <= i < |a.elements|
        ensures Equal(a.elements[i], b.elements[i]) <==> Meaning(a).elements[i] == Meaning(b).elements[i]
      {
        EqualIsSameMeaning(a.elements[i], b.elements[i]);
      }
    } else {
      assert |Meaning(a).elements| != |Meaning(b).elements|;
    }
  }

  predicate EqualAt(a: seq<Member>, b: seq<Member>, k: string)
    decreases a
  {
    HasKey(a, k) && HasKey(b, k) && Equal(a[Index(a, k)].value, b[Index(b, k)].value)
  }

  lemma {:induction false} ObjectsEqual(a: Json, b: Json)
    requires Proper(a) && Proper(b) && a.Obj? && b.Obj?
    ensures Equal(a, b) <==> Meaning(a) == Meaning(b)
    decreases a, 0
  {
    var ma, mb := Meaning(a).members, Meaning(b).members;
    assert ma.Keys == Keys(a.members) && mb.Keys == Keys(b.members);
    if ma.Keys == mb.Keys {
      forall k | k in ma ensures EqualAt(a.members, b.members, k) <==> ma[k] == mb[k] {
        assert HasKey(a.members, k) && k in mb;
        EqualIsSameMeaning(a.members[Index(a.members, k)].value, b.members[Index(b.members, k)].value);
      }
      MembersEqual(a, b);
      SameMap(ma, mb);
    }
  }

  lemma SameMap(a: map<string, Instance>, b: map<string, Instance>)
    requires a.Keys == b.Keys
    ensures a == b <==> forall k :: k in a ==> a[k] == b[k]
  {
  }

  /** Going through the members of `a` is going through its keys. */
  lemma MembersEqual(a: Json, b: Json)
    requires Proper(a) && a.Obj? && b.Obj? && Keys(a.members) == Keys(b.members)
    ensures Equal(a, b) <==> forall k :: k in Keys(a.members) ==> EqualAt(a.members, b.members, k)
  {
    forall k | k in Keys(a.members) ensures HasKey(a.members, k) && HasKey(b.members, k) {
      assert k in Keys(b.members);
    }
    forall i | 0 <= i < |a.members|
      ensures a.members[i].key in Keys(a.members) && Index(a.members, a.members[i].key) == i
    {
      assert HasKey(a.members, a.members[i].key);
    }
  }

  /** So the checker's equality is an equivalence. */
  lemma EqualIsEquivalence(a: Json, b: Json, c: Json)
    requires Proper(a) && Proper(b) && Proper(c)
    ensures Equal(a, a) && (Equal(a, b) ==> Equal(b, a)) && (Equal(a, b) && Equal(b, c) ==> Equal(a, c))
  {
    EqualIsSameMeaning(a, a);
    EqualIsSameMeaning(a, b);
    EqualIsSameMeaning(b, a);
    EqualIsSameMeaning(b, c);
    EqualIsSameMeaning(a, c);
  }

  // ------------------------------------------------------------------
  // Size
  // ------------------------------------------------------------------

  function Size(j: Json): nat {
    match j
    case Arr(elements) => 1 + SizeAll(elements)
    case Obj(members) => 1 + SizeMembers(members)
    case _ => 1
  }

  function SizeAll(elements: seq<Json>): nat {
    if elements == [] then 0 else Size(elements[0]) + SizeAll(elements[1..])
  }

  function SizeMembers(members: seq<Member>): nat {
    if members == [] then 0 else 1 + Size(members[0].value) + SizeMembers(members[1..])
  }

  lemma {:induction false} ElementSmaller(elements: seq<Json>, i: nat)
    requires i < |elements|
    ensures Size(elements[i]) <= SizeAll(elements)
    decreases elements
  {
    if i > 0 {
      ElementSmaller(elements[1..], i - 1);
    }
  }

  lemma {:induction false} MemberSmaller(members: seq<Member>, i: nat)
    requires i < |members|
    ensures Size(members[i].value) < SizeMembers(members) && 1 <= SizeMembers(members)
    decreases members
  {
    if i > 0 {
      MemberSmaller(members[1..], i - 1);
    }
  }
}
