/** The strict JSON reader behind policy files: duplicate keys and deep nesting are refused, so an
    accepted text has exactly one reading.
 */
module Json {
  import opened Messages

  datatype Json =
    | Null | Bool(flag: bool) | Number(digits: string) | Text(text: string)
    | List(items: seq<Json>) | Object(fields: map<string, Json>)

  type Scalar = j: Json | !j.List? && !j.Object? witness Null

  // What json.Decoder.Token yields: delimiters, and scalars (object keys are strings).
  datatype Token = BeginObject | EndObject | BeginArray | EndArray | Value(scalar: Scalar)

  const MaxDepth := 100

  predicate Closing(t: Token) {
    t.EndObject? || t.EndArray?
  }

  /******* The reader *******/

  type Reading = Option<(Json, seq<Token>)>

  // decodeValue: the value and the tokens left over.
  function DecodeValue(ts: seq<Token>, depth: nat): (r: Reading)
    ensures r.Some? ==> |r.value.1| < |ts|
    decreases |ts|, 0
  {
    if depth > MaxDepth || ts == [] then None
    else
      match ts[0]
      case BeginObject => DecodeMembers(ts[1..], depth, map[])
      case BeginArray => DecodeItems(ts[1..], depth, [])
      case Value(j) => Some((j, ts[1..]))
      case _ => None
  }

  // The rest of an object whose members so far are known.
  function DecodeMembers(ts: seq<Token>, depth: nat, sofar: map<string, Json>): (r: Reading)
    ensures r.Some? ==> |r.value.1| < |ts|
    decreases |ts|, 1
  {
    if ts == [] then None
    else if Closing(ts[0]) then (if ts[0].EndObject? then Some((Object(sofar), ts[1..])) else None)
    else if !ts[0].Value? || !ts[0].scalar.Text? || ts[0].scalar.text in sofar then None
    else
      match DecodeValue(ts[1..], depth + 1)
      case None => None
      case Some((j, rest)) => DecodeMembers(rest, depth, sofar[ts[0].scalar.text := j])
  }

  function DecodeItems(ts: seq<Token>, depth: nat, sofar: seq<Json>): (r: Reading)
    ensures r.Some? ==> |r.value.1| < |ts|
    decreases |ts|, 1
  {
    if ts == [] then None
    else if Closing(ts[0]) then (if ts[0].EndArray? then Some((List(sofar), ts[1..])) else None)
    else
      match DecodeValue(ts, depth + 1)
      case None => None
      case Some((j, rest)) => DecodeItems(rest, depth, sofar + [j])
  }

  // decodeValue as the code runs it: loops over a token stream that is consumed in place.
  method ReadValue(ts: seq<Token>, depth: nat) returns (r: Reading)
    ensures r == DecodeValue(ts, depth)
    decreases |ts|, 0
  {
    if depth > MaxDepth || ts == [] {
      return None;
    }
    match ts[0] {
      case BeginObject =>
        r := ReadObject(ts[1..], depth);
      case BeginArray =>
        r := ReadArray(ts[1..], depth);
      case Value(j) =>
        r := Some((j, ts[1..]));
      case _ =>
        r := None;
    }
  }

  method ReadObject(ts: seq<Token>, depth: nat) returns (r: Reading)
    ensures r == DecodeMembers(ts, depth, map[])
    decreases |ts|, 1
  {
    var left, fields := ts, map[];
    while left != [] && !Closing(left[0])
      invariant |left| <= |ts|
      invariant DecodeMembers(left, depth, fields) == DecodeMembers(ts, depth, map[])
      decreases |left|
    {
      if !left[0].Value? || !left[0].scalar.Text? || left[0].scalar.text in fields {
        return None;
      }
      var name := left[0].scalar.text;
      var value := ReadValue(left[1..], depth + 1);
      if value.None? {
        return None;
      }
      fields, left := fields[name := value.value.0], value.value.1;
    }
    if left == [] || !left[0].EndObject? {
      return None;
    }
    return Some((Object(fields), left[1..]));
  }

  method ReadArray(ts: seq<Token>, depth: nat) returns (r: Reading)
    ensures r == DecodeItems(ts, depth, [])
    decreases |ts|, 1
  {
    var left, items := ts, [];
    while left != [] && !Closing(left[0])
      invariant |left| <= |ts|
      invariant DecodeItems(left, depth, items) == DecodeItems(ts, depth, [])
      decreases |left|
    {
      var value := ReadValue(left, depth + 1);
      if value.None? {
        return None;
      }
      items, left := items + [value.value.0], value.value.1;
    }
    if left == [] || !left[0].EndArray? {
      return None;
    }
    return Some((List(items), left[1..]));
  }

  /******* Written documents *******/

  // A document as written: members in the order of the text, keys possibly repeated.
  datatype Tree = Leaf(scalar: Scalar) | Array(items: seq<Tree>) | Members(members: seq<Member>)

  datatype Member = Member(key: string, tree: Tree)

  function Tokens(t: Tree): seq<Token> {
    match t
    case Leaf(j) => [Value(j)]
    case Array(items) => [BeginArray] + ItemTokens(items) + [EndArray]
    case Members(members) => [BeginObject] + MemberTokens(members) + [EndObject]
  }

  function ItemTokens(items: seq<Tree>): seq<Token> {
    if items == [] then [] else Tokens(items[0]) + ItemTokens(items[1..])
  }

  function MemberTokens(members: seq<Member>): seq<Token> {
    if members == [] then [] else [Value(Text(members[0].key))] + Tokens(members[0].tree) + MemberTokens(members[1..])
  }

  function Meaning(t: Tree): Json {
    match t
    case Leaf(j) => j
    case Array(items) => List(ItemMeanings(items))
    case Members(members) => Object(MemberMeanings(members))
  }

  function ItemMeanings(items: seq<Tree>): (r: seq<Json>)
    ensures |r| == |items|
  {
    if items == [] then [] else [Meaning(items[0])] + ItemMeanings(items[1..])
  }

  function MemberMeanings(members: seq<Member>): map<string, Json> {
    if members == [] then map[] else MemberMeanings(members[1..])[members[0].key := Meaning(members[0].tree)]
  }

  // No object repeats a key, and nothing is nested deeper than `room` levels.
  predicate Strict(t: Tree, room: int) {
    && room >= 0
    && match t
       case Leaf(_) => true
       case Array(items) => forall i | 0 <= i < |items| :: Strict(items[i], room - 1)
       case Members(members) =>
         && (forall i | 0 <= i < |members| :: Strict(members[i].tree, room - 1))
         && (forall i, j | 0 <= i < j < |members| :: members[i].key != members[j].key)
  }

  /******* The reader is exact *******/

  lemma {:induction false} WrittenIsRead(t: Tree, rest: seq<Token>, depth: nat)
    requires Strict(t, MaxDepth - depth)
    ensures DecodeValue(Tokens(t) + rest, depth) == Some((Meaning(t), rest))
    decreases t, 1
  {
    var ts := Tokens(t) + rest;
    match t {
      case Leaf(j) => assert ts[1..] == rest;
      case Array(items) =>
        assert ts[1..] == ItemTokens(items) + ([EndArray] + rest);
        ItemsAreRead(items, rest, depth, []);
        assert [] + ItemMeanings(items) == ItemMeanings(items);
      case Members(members) =>
        assert ts[1..] == MemberTokens(members) + ([EndObject] + rest);
        MembersAreRead(members, rest, depth, map[]);
        assert map[] + MemberMeanings(members) == MemberMeanings(members);
    }
  }

  lemma OpensWell(t: Tree)
    ensures Tokens(t) != [] && !Closing(Tokens(t)[0])
  {
  }

  lemma {:induction false} ItemsAreRead(items: seq<Tree>, rest: seq<Token>, depth: nat, sofar: seq<Json>)
    requires forall i | 0 <= i < |items| :: Strict(items[i], MaxDepth - depth - 1)
    ensures DecodeItems(ItemTokens(items) + ([EndArray] + rest), depth, sofar) ==
            Some((List(sofar + ItemMeanings(items)), rest))
    decreases items, 0
  {
    var ts := ItemTokens(items) + ([EndArray] + rest);
    if items == [] {
      assert ts == [EndArray] + rest && ts[1..] == rest;
      assert sofar + [] == sofar;
    } else {
      var after := ItemTokens(items[1..]) + ([EndArray] + rest);
      assert ts == Tokens(items[0]) + after;
      OpensWell(items[0]);
      WrittenIsRead(items[0], after, depth + 1);
      ItemsAreRead(items[1..], rest, depth, sofar + [Meaning(items[0])]);
      assert sofar + [Meaning(items[0])] + ItemMeanings(items[1..]) == sofar + ItemMeanings(items);
    }
  }

  lemma {:induction false} KeysOfMeanings(members: seq<Member>)
    ensures forall k :: k in MemberMeanings(members) <==> exists i | 0 <= i < |members| :: members[i].key == k
  {
    if members != [] {
      KeysOfMeanings(members[1..]);
      forall k | k in MemberMeanings(members) ensures exists i | 0 <= i < |members| :: members[i].key == k {
        if k != members[0].key {
          assert k in MemberMeanings(members[1..]);
          var i :| 0 <= i < |members[1..]| && members[1..][i].key == k;
          assert members[i + 1].key == k;
        }
      }
      forall i | 0 <= i < |members| ensures members[i].key in MemberMeanings(members) {
        if i > 0 { assert members[1..][i - 1].key == members[i].key; }
      }
    }
  }

  lemma {:induction false} MembersAreRead(members: seq<Member>, rest: seq<Token>, depth: nat, sofar: map<string, Json>)
    requires forall i | 0 <= i < |members| :: Strict(members[i].tree, MaxDepth - depth - 1) && members[i].key !in sofar
    requires forall i, j | 0 <= i < j < |members| :: members[i].key != members[j].key
    ensures DecodeMembers(MemberTokens(members) + ([EndObject] + rest), depth, sofar) ==
            Some((Object(sofar + MemberMeanings(members)), rest))
    decreases members, 0
  {
    var ts := MemberTokens(members) + ([EndObject] + rest);
    if members == [] {
      assert ts == [EndObject] + rest && ts[1..] == rest;
      assert sofar + map[] == sofar;
    } else {
      var first, after := members[0], MemberTokens(members[1..]) + ([EndObject] + rest);
      assert ts == [Value(Text(first.key))] + (Tokens(first.tree) + after);
      assert ts[1..] == Tokens(first.tree) + after;
      WrittenIsRead(first.tree, after, depth + 1);
      forall i | 0 <= i < |members[1..]| ensures members[1..][i].key !in sofar[first.key := Meaning(first.tree)] {
        assert members[1..][i] == members[i + 1];
      }
      MembersAreRead(members[1..], rest, depth, sofar[first.key := Meaning(first.tree)]);
      FirstMember(members, sofar);
    }
  }

  // Adding a member first or last makes no difference while its key is new.
  lemma FirstMember(members: seq<Member>, sofar: map<string, Json>)
    requires members != []
    requires forall i, j | 0 <= i < j < |members| :: members[i].key != members[j].key
    ensures sofar[members[0].key := Meaning(members[0].tree)] + MemberMeanings(members[1..])
            == sofar + MemberMeanings(members)
  {
    KeysOfMeanings(members[1..]);
    hide Meaning;
    assert members[0].key !in MemberMeanings(members[1..]) by {
      forall i | 0 <= i < |members[1..]| ensures members[1..][i].key != members[0].key {
        assert members[1..][i] == members[i + 1];
      }
    }
    PutMoves(sofar, MemberMeanings(members[1..]), members[0].key, Meaning(members[0].tree));
  }

  lemma PutMoves(a: map<string, Json>, b: map<string, Json>, k: string, j: Json)
    requires k !in b
    ensures a[k := j] + b == a + b[k := j]
  {
  }

  // A member in front of others that were read after it.
  lemma ConsMember(m: Member, others: seq<Member>, sofar: map<string, Json>, room: int)
    requires Strict(m.tree, room) && m.key !in sofar && NewKeys(others, sofar[m.key := Meaning(m.tree)], room)
    ensures var members := [m] + others;
            && NewKeys(members, sofar, room)
            && MemberTokens(members) == [Value(Text(m.key))] + Tokens(m.tree) + MemberTokens(others)
            && sofar[m.key := Meaning(m.tree)] + MemberMeanings(others) == sofar + MemberMeanings(members)
  {
    var members := [m] + others;
    assert members[1..] == others;
    forall i, k | 0 <= i < k < |members| ensures members[i].key != members[k].key {
      assert members[k] == others[k - 1];
      if i > 0 { assert members[i] == others[i - 1]; }
    }
    FirstMember(members, sofar);
  }

  lemma WrappedItems(items: seq<Tree>, rest: seq<Token>, room: int)
    requires room >= 0 && forall i | 0 <= i < |items| :: Strict(items[i], room - 1)
    ensures Strict(Array(items), room)
    ensures Tokens(Array(items)) + rest == [BeginArray] + (ItemTokens(items) + ([EndArray] + rest))
    ensures Meaning(Array(items)) == List([] + ItemMeanings(items))
  {
  }

  lemma WrappedMembers(members: seq<Member>, rest: seq<Token>, room: int)
    requires room >= 0 && forall i | 0 <= i < |members| :: Strict(members[i].tree, room - 1)
    requires forall i, j | 0 <= i < j < |members| :: members[i].key != members[j].key
    ensures Strict(Members(members), room)
    ensures Tokens(Members(members)) + rest == [BeginObject] + (MemberTokens(members) + ([EndObject] + rest))
    ensures Meaning(Members(members)) == Object(map[] + MemberMeanings(members))
  {
    assert map[] + MemberMeanings(members) == MemberMeanings(members);
  }

  lemma {:induction false} ReadIsWritten(ts: seq<Token>, depth: nat) returns (t: Tree)
    requires DecodeValue(ts, depth).Some?
    ensures var (j, rest) := DecodeValue(ts, depth).value;
            Strict(t, MaxDepth - depth) && ts == Tokens(t) + rest && Meaning(t) == j
    decreases |ts|, 0
  {
    var rest := DecodeValue(ts, depth).value.1;
    assert ts == [ts[0]] + ts[1..];
    match ts[0] {
      case BeginObject =>
        assert DecodeValue(ts, depth) == DecodeMembers(ts[1..], depth, map[]);
        hide DecodeValue, DecodeMembers, Strict, Tokens, Meaning, MemberTokens, MemberMeanings;
        var members := MembersAreWritten(ts[1..], depth, map[]);
        WrappedMembers(members, rest, MaxDepth - depth);
        t := Members(members);
      case BeginArray =>
        assert DecodeValue(ts, depth) == DecodeItems(ts[1..], depth, []);
        hide DecodeValue, DecodeItems, Strict, Tokens, Meaning, ItemTokens, ItemMeanings;
        var items := ItemsAreWritten(ts[1..], depth, []);
        WrappedItems(items, rest, MaxDepth - depth);
        t := Array(items);
      case Value(j) =>
        t := Leaf(j);
    }
  }

  lemma ConsItem(first: Tree, others: seq<Tree>, sofar: seq<Json>)
    ensures ItemTokens([first] + others) == Tokens(first) + ItemTokens(others)
    ensures sofar + [Meaning(first)] + ItemMeanings(others) == sofar + ItemMeanings([first] + others)
  {
    assert ([first] + others)[1..] == others;
  }

  // The reader's step over one item.
  lemma ItemsStep(ts: seq<Token>, depth: nat, sofar: seq<Json>)
    requires DecodeItems(ts, depth, sofar).Some?
    ensures ts != [] && ts == [ts[0]] + ts[1..]
    ensures Closing(ts[0]) ==> ts[0].EndArray? && DecodeItems(ts, depth, sofar) == Some((List(sofar), ts[1..]))
    ensures !Closing(ts[0]) ==>
              && DecodeValue(ts, depth + 1).Some?
              && DecodeItems(ts, depth, sofar) ==
                 DecodeItems(DecodeValue(ts, depth + 1).value.1, depth, sofar + [DecodeValue(ts, depth + 1).value.0])
  {
  }

  lemma NoItems(rest: seq<Token>, sofar: seq<Json>)
    ensures ItemTokens([]) + ([EndArray] + rest) == [EndArray] + rest && sofar + ItemMeanings([]) == sofar
  {
  }

  lemma {:induction false} ItemsAreWritten(ts: seq<Token>, depth: nat, sofar: seq<Json>) returns (items: seq<Tree>)
    requires depth <= MaxDepth && DecodeItems(ts, depth, sofar).Some?
    ensures var (j, rest) := DecodeItems(ts, depth, sofar).value;
            && (forall i | 0 <= i < |items| :: Strict(items[i], MaxDepth - depth - 1))
            && ts == ItemTokens(items) + ([EndArray] + rest)
            && j == List(sofar + ItemMeanings(items))
    decreases |ts|, 1
  {
    hide DecodeItems, DecodeValue, Tokens, Meaning, ItemTokens, ItemMeanings, Strict;
    ItemsStep(ts, depth, sofar);
    var rest := DecodeItems(ts, depth, sofar).value.1;
    if Closing(ts[0]) {
      items := [];
      NoItems(rest, sofar);
    } else {
      var (j, left) := DecodeValue(ts, depth + 1).value;
      var first := ReadIsWritten(ts, depth + 1);
      var others := ItemsAreWritten(left, depth, sofar + [j]);
      items := [first] + others;
      ConsItem(first, others, sofar);
      assert ts == ItemTokens(items) + ([EndArray] + rest);
    }
  }

  // The keys of members that were read are new, and differ.
  predicate NewKeys(members: seq<Member>, sofar: map<string, Json>, room: int) {
    && (forall i | 0 <= i < |members| :: Strict(members[i].tree, room) && members[i].key !in sofar)
    && (forall i, k | 0 <= i < k < |members| :: members[i].key != members[k].key)
  }

  lemma NoMembers(rest: seq<Token>, sofar: map<string, Json>, room: int)
    ensures NewKeys([], sofar, room) && MemberTokens([]) + ([EndObject] + rest) == [EndObject] + rest
    ensures sofar + MemberMeanings([]) == sofar
  {
  }

  // The reader's step over one member.
  lemma MembersStep(ts: seq<Token>, depth: nat, sofar: map<string, Json>)
    requires DecodeMembers(ts, depth, sofar).Some?
    ensures ts != [] && ts == [ts[0]] + ts[1..]
    ensures Closing(ts[0]) ==> ts[0].EndObject? && DecodeMembers(ts, depth, sofar) == Some((Object(sofar), ts[1..]))
    ensures !Closing(ts[0]) ==>
              && ts[0].Value? && ts[0].scalar.Text? && ts[0].scalar.text !in sofar
              && DecodeValue(ts[1..], depth + 1).Some?
              && DecodeMembers(ts, depth, sofar) ==
                 DecodeMembers(DecodeValue(ts[1..], depth + 1).value.1, depth,
                               sofar[ts[0].scalar.text := DecodeValue(ts[1..], depth + 1).value.0])
  {
  }

  lemma {:induction false} MembersAreWritten(ts: seq<Token>, depth: nat, sofar: map<string, Json>)
    returns (members: seq<Member>)
    requires depth <= MaxDepth && DecodeMembers(ts, depth, sofar).Some?
    ensures var (j, rest) := DecodeMembers(ts, depth, sofar).value;
            && NewKeys(members, sofar, MaxDepth - depth - 1)
            && ts == MemberTokens(members) + ([EndObject] + rest)
            && j == Object(sofar + MemberMeanings(members))
    decreases |ts|, 1
  {
    hide DecodeMembers, DecodeValue, Tokens, Meaning, MemberTokens, MemberMeanings, Strict, NewKeys;
    MembersStep(ts, depth, sofar);
    var rest := DecodeMembers(ts, depth, sofar).value.1;
    if Closing(ts[0]) {
      members := [];
      NoMembers(rest, sofar, MaxDepth - depth - 1);
    } else {
      var name := ts[0].scalar.text;
      var (j, left) := DecodeValue(ts[1..], depth + 1).value;
      var first := ReadIsWritten(ts[1..], depth + 1);
      var others := MembersAreWritten(left, depth, sofar[name := j]);
      members := [Member(name, first)] + others;
      ConsMember(Member(name, first), others, sofar, MaxDepth - depth - 1);
      assert ts[1..] == Tokens(first) + (MemberTokens(others) + ([EndObject] + rest));
      assert ts == MemberTokens(members) + ([EndObject] + rest);
    }
  }

  /** The reader is exact: it accepts a token stream, with these tokens left over, exactly when the
      rest is the writing of some document without repeated keys and with at most 100 levels, and
      it returns what that document means. */
  lemma ReaderIsExact(ts: seq<Token>, j: Json, rest: seq<Token>)
    ensures DecodeValue(ts, 0) == Some((j, rest)) <==>
            exists t: Tree :: Strict(t, MaxDepth) && ts == Tokens(t) + rest && Meaning(t) == j
  {
    if DecodeValue(ts, 0) == Some((j, rest)) {
      var t := ReadIsWritten(ts, 0);
      assert Strict(t, MaxDepth) && ts == Tokens(t) + rest && Meaning(t) == j;
    }
    forall t: Tree | Strict(t, MaxDepth) && ts == Tokens(t) + rest && Meaning(t) == j
      ensures DecodeValue(ts, 0) == Some((j, rest))
    {
      WrittenIsRead(t, rest, 0);
    }
  }

  lemma {:induction false} MeaningAt(members: seq<Member>, i: nat)
    requires i < |members|
    requires forall a, b | 0 <= a < b < |members| :: members[a].key != members[b].key
    ensures members[i].key in MemberMeanings(members)
    ensures MemberMeanings(members)[members[i].key] == Meaning(members[i].tree)
  {
    if i > 0 {
      MeaningAt(members[1..], i - 1);
      assert members[1..][i - 1] == members[i];
    }
  }

  /** Key order does not matter: two writings with the same members mean the same object. */
  lemma KeyOrderIsIrrelevant(a: seq<Member>, b: seq<Member>)
    requires forall i, j | 0 <= i < j < |a| :: a[i].key != a[j].key
    requires forall i, j | 0 <= i < j < |b| :: b[i].key != b[j].key
    requires forall m :: m in a <==> m in b
    ensures Meaning(Members(a)) == Meaning(Members(b))
  {
    KeysOfMeanings(a);
    KeysOfMeanings(b);
    forall k ensures k in MemberMeanings(a) <==> k in MemberMeanings(b) {
      if k in MemberMeanings(a) {
        var i :| 0 <= i < |a| && a[i].key == k;
        assert a[i] in b;
      }
      if k in MemberMeanings(b) {
        var i :| 0 <= i < |b| && b[i].key == k;
        assert b[i] in a;
      }
    }
    forall k | k in MemberMeanings(a) ensures MemberMeanings(a)[k] == MemberMeanings(b)[k] {
      var i :| 0 <= i < |a| && a[i].key == k;
      assert a[i] in b;
      var j :| 0 <= j < |b| && b[j] == a[i];
      MeaningAt(a, i);
      MeaningAt(b, j);
    }
    assert MemberMeanings(a) == MemberMeanings(b);
  }
}
