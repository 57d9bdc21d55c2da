/** The two duplicate-member scanners (schemas/authority_quorum_validator.go and
    cmd/asb-leastprivilege-proof/strict_json.go) on the token stream of a JSON
    decoder: RFC 8259 section 4 and RFC 7493 section 2.3 ask for unique names. */
module StrictJson {
  import opened Bytes

  datatype Json =
    | Scalar
    | Text(s: string)
    | Arr(items: seq<Json>)
    | Obj(members: seq<Member>)

  datatype Member = Member(name: string, value: Json)

  datatype Token = OpenObject | CloseObject | OpenArray | CloseArray | StringToken(s: string) | ScalarToken

  // ----- The token stream of a tree -----

  function Tokens(j: Json): (ts: seq<Token>)
    ensures ts != [] && !Closes(ts[0])
    decreases j
  {
    match j
    case Scalar => [ScalarToken]
    case Text(s) => [StringToken(s)]
    case Arr(items) => [OpenArray] + ItemTokens(items) + [CloseArray]
    case Obj(members) => [OpenObject] + MemberTokens(members) + [CloseObject]
  }

  function ItemTokens(items: seq<Json>): seq<Token>
    decreases items
  {
    if items == [] then [] else Tokens(items[0]) + ItemTokens(items[1..])
  }

  function MemberTokens(members: seq<Member>): seq<Token>
    decreases members
  {
    if members == [] then [] else [StringToken(members[0].name)] + Tokens(members[0].value) + MemberTokens(members[1..])
  }

  // ----- What the scanners are to find out -----

  /** No object at any depth repeats a name. */
  ghost predicate Unique(j: Json)
    decreases j
  {
    match j
    case Arr(items) => AllUnique(items)
    case Obj(members) =>
      && (forall a, b :: 0 <= a < b < |members| ==> members[a].name != members[b].name)
      && AllMembersUnique(members)
    case _ => true
  }

  ghost predicate AllUnique(items: seq<Json>)
    decreases items
  {
    items == [] || (Unique(items[0]) && AllUnique(items[1..]))
  }

  ghost predicate AllMembersUnique(members: seq<Member>)
    decreases members
  {
    members == [] || (Unique(members[0].value) && AllMembersUnique(members[1..]))
  }

  function Max(a: nat, b: nat): nat {
    if a < b then b else a
  }

  /** How far below its root a tree has values: 0 for a scalar or an empty container. */
  function Depth(j: Json): nat
    decreases j
  {
    match j
    case Arr(items) => ItemsDepth(items)
    case Obj(members) => MembersDepth(members)
    case _ => 0
  }

  function ItemsDepth(items: seq<Json>): nat
    decreases items
  {
    if items == [] then 0 else Max(1 + Depth(items[0]), ItemsDepth(items[1..]))
  }

  function MembersDepth(members: seq<Member>): nat
    decreases members
  {
    if members == [] then 0 else Max(1 + Depth(members[0].value), MembersDepth(members[1..]))
  }

  // ----- The scanners -----

  predicate Closes(t: Token) {
    t == CloseObject || t == CloseArray
  }

  /** decoder.More: a token is left and it closes nothing. */
  predicate More(ts: seq<Token>) {
    ts != [] && !Closes(ts[0])
  }

  /** scanJSONValue (`bound` None) and uniqueKeys (`bound` Some(32)): the tokens left
      after one value, or None for an error. */
  function Scan(ts: seq<Token>, depth: nat, bound: Option<nat>): (r: Option<seq<Token>>)
    ensures r.Some? ==> |r.value| < |ts|
    decreases |ts|, 0
  {
    if bound.Some? && depth > bound.value then None
    else if ts == [] then None
    else match ts[0]
         case OpenObject => ScanMembers(ts[1..], {}, depth, bound)
         case OpenArray => ScanItems(ts[1..], depth, bound)
         case StringToken(_) => Some(ts[1..])
         case ScalarToken => Some(ts[1..])
         case _ => None
  }

  function ScanMembers(ts: seq<Token>, seen: set<string>, depth: nat, bound: Option<nat>): (r: Option<seq<Token>>)
    ensures r.Some? ==> |r.value| < |ts|
    decreases |ts|, 1
  {
    if !More(ts) then (if ts == [] then None else Some(ts[1..]))
    else if !ts[0].StringToken? || ts[0].s in seen then None
    else match Scan(ts[1..], depth + 1, bound)
         case None => None
         case Some(rest) => ScanMembers(rest, seen + {ts[0].s}, depth, bound)
  }

  function ScanItems(ts: seq<Token>, depth: nat, bound: Option<nat>): (r: Option<seq<Token>>)
    ensures r.Some? ==> |r.value| < |ts|
    decreases |ts|, 1
  {
    if !More(ts) then (if ts == [] then None else Some(ts[1..]))
    else match Scan(ts, depth + 1, bound)
         case None => None
         case Some(rest) => ScanItems(rest, depth, bound)
  }

  class Decoder {
    var rest: seq<Token>

    constructor (ts: seq<Token>)
      ensures rest == ts
    {
      rest := ts;
    }

    method Token() returns (t: Option<Token>)
      modifies this
      ensures old(rest) == [] ==> t == None && rest == []
      ensures old(rest) != [] ==> t == Some(old(rest)[0]) && rest == old(rest)[1..]
    {
      if rest == [] {
        return None;
      }
      t := Some(rest[0]);
      rest := rest[1..];
    }

    /** Both scanners: recursion over a decoder whose cursor advances, with a set of
        seen names per object. */
    method ScanValue(depth: nat, bound: Option<nat>) returns (ok: bool)
      modifies this
      ensures ok <==> Scan(old(rest), depth, bound).Some?
      ensures ok ==> Scan(old(rest), depth, bound) == Some(rest)
      decreases |rest|
    {
      if bound.Some? && depth > bound.value {
        return false;
      }
      var token := Token();
      if token.None? {
        return false;
      }
      match token.value {
      case OpenObject =>
        var seen: set<string> := {};
        while More(rest)
          invariant |rest| < |old(rest)|
          invariant Scan(old(rest), depth, bound) == ScanMembers(rest, seen, depth, bound)
          decreases |rest|
        {
          var member := Token();
          if !member.value.StringToken? || member.value.s in seen {
            return false;
          }
          seen := seen + {member.value.s};
          var inner := ScanValue(depth + 1, bound);
          if !inner {
            return false;
          }
        }
      case OpenArray =>
        while More(rest)
          invariant |rest| < |old(rest)|
          invariant Scan(old(rest), depth, bound) == ScanItems(rest, depth, bound)
          decreases |rest|
        {
          var inner := ScanValue(depth + 1, bound);
          if !inner {
            return false;
          }
        }
      case StringToken(_) => return true;
      case ScalarToken => return true;
      case _ => return false;
      }
      var last := Token();
      return last.Some?;
    }
  }

  /** rejectDuplicateJSONMembers: one value and nothing after it. */
  method RejectDuplicateMembers(ts: seq<Token>) returns (ok: bool)
    ensures ok <==> Scan(ts, 0, None) == Some([])
  {
    var d := new Decoder(ts);
    ok := d.ScanValue(0, None);
    if ok {
      var extra := d.Token();
      ok := extra.None?;
    }
  }

  /** uniqueKeys, as readJSON calls it. */
  method UniqueKeys(ts: seq<Token>) returns (ok: bool, rest: seq<Token>)
    ensures Scan(ts, 0, Some(32)) == if ok then Some(rest) else None
  {
    var d := new Decoder(ts);
    ok := d.ScanValue(0, Some(32));
    rest := d.rest;
  }

  // ----- The scanners decide uniqueness and depth -----

  predicate Within(level: nat, bound: Option<nat>) {
    bound.None? || level <= bound.value
  }

  /** The member loop's view: names new and not repeated. */
  predicate NewNames(members: seq<Member>, seen: set<string>) {
    members == [] || (members[0].name !in seen && NewNames(members[1..], seen + {members[0].name}))
  }

  lemma {:induction false} NewNamesMeansDistinct(members: seq<Member>, seen: set<string>)
    ensures NewNames(members, seen) <==>
      && (forall a :: 0 <= a < |members| ==> members[a].name !in seen)
      && (forall a, b :: 0 <= a < b < |members| ==> members[a].name != members[b].name)
    decreases |members|
  {
    if members != [] {
      var rest, seen' := members[1..], seen + {members[0].name};
      NewNamesMeansDistinct(rest, seen');
      assert forall a :: 0 < a < |members| ==> members[a] == rest[a - 1];
      assert forall a :: 0 <= a < |rest| ==> rest[a] == members[a + 1];
    }
  }

  /** On the tokens of any tree followed by anything, the scan succeeds exactly when
      no object repeats a name and the nesting stays within the bound, and then it
      has consumed exactly that tree. */
  lemma {:induction false} ScanDecides(j: Json, suffix: seq<Token>, depth: nat, bound: Option<nat>)
    ensures Scan(Tokens(j) + suffix, depth, bound) ==
      if Unique(j) && Within(depth + Depth(j), bound) then Some(suffix) else None
    decreases j
  {
    var ts := Tokens(j) + suffix;
    match j
    case Arr(items) =>
      assert ts[1..] == ItemTokens(items) + ([CloseArray] + suffix);
      ScanItemsDecides(items, suffix, depth, bound);
    case Obj(members) =>
      assert ts[1..] == MemberTokens(members) + ([CloseObject] + suffix);
      ScanMembersDecides(members, {}, suffix, depth, bound);
      NewNamesMeansDistinct(members, {});
    case _ =>
      assert ts[1..] == suffix;
  }

  lemma ScansOneItem(ts: seq<Token>, depth: nat, bound: Option<nat>)
    requires More(ts)
    ensures ScanItems(ts, depth, bound) ==
      match Scan(ts, depth + 1, bound)
      case None => None
      case Some(rest) => ScanItems(rest, depth, bound)
  {
    hide Scan;
  }

  lemma ScansNoItem(suffix: seq<Token>, depth: nat, bound: Option<nat>)
    ensures ScanItems([CloseArray] + suffix, depth, bound) == Some(suffix)
  {
    hide Scan;
    assert ([CloseArray] + suffix)[1..] == suffix;
  }

  lemma {:induction false} ScanItemsDecides(items: seq<Json>, suffix: seq<Token>, depth: nat, bound: Option<nat>)
    ensures Within(depth, bound) ==>
      ScanItems(ItemTokens(items) + ([CloseArray] + suffix), depth, bound) ==
      if AllUnique(items) && Within(depth + ItemsDepth(items), bound) then Some(suffix) else None
    decreases items
  {
    hide Scan, ScanItems, Tokens, Unique, Depth;
    var ts := ItemTokens(items) + ([CloseArray] + suffix);
    if items == [] {
      assert ts == [CloseArray] + suffix;
      ScansNoItem(suffix, depth, bound);
    } else {
      var rest := ItemTokens(items[1..]) + ([CloseArray] + suffix);
      assert ts == Tokens(items[0]) + rest;
      ScansOneItem(ts, depth, bound);
      ScanDecides(items[0], rest, depth + 1, bound);
      ScanItemsDecides(items[1..], suffix, depth, bound);
    }
  }

  lemma ScansOneMember(name: string, tail: seq<Token>, seen: set<string>, depth: nat, bound: Option<nat>)
    ensures ScanMembers([StringToken(name)] + tail, seen, depth, bound) ==
      if name in seen then None
      else match Scan(tail, depth + 1, bound)
           case None => None
           case Some(rest) => ScanMembers(rest, seen + {name}, depth, bound)
  {
    hide Scan;
    assert ([StringToken(name)] + tail)[1..] == tail;
  }

  lemma ScansNoMember(suffix: seq<Token>, seen: set<string>, depth: nat, bound: Option<nat>)
    ensures ScanMembers([CloseObject] + suffix, seen, depth, bound) == Some(suffix)
  {
    hide Scan;
    assert ([CloseObject] + suffix)[1..] == suffix;
  }

  lemma {:induction false} ScanMembersDecides(members: seq<Member>, seen: set<string>, suffix: seq<Token>, depth: nat, bound: Option<nat>)
    ensures Within(depth, bound) ==>
      ScanMembers(MemberTokens(members) + ([CloseObject] + suffix), seen, depth, bound) ==
      if NewNames(members, seen) && AllMembersUnique(members) && Within(depth + MembersDepth(members), bound) then Some(suffix) else None
    decreases members
  {
    hide Scan, ScanMembers, Tokens, Unique, Depth;
    var ts := MemberTokens(members) + ([CloseObject] + suffix);
    if members == [] {
      assert ts == [CloseObject] + suffix;
      ScansNoMember(suffix, seen, depth, bound);
    } else {
      var m, rest := members[0], MemberTokens(members[1..]) + ([CloseObject] + suffix);
      assert ts == [StringToken(m.name)] + (Tokens(m.value) + rest);
      ScansOneMember(m.name, Tokens(m.value) + rest, seen, depth, bound);
      ScanDecides(m.value, rest, depth + 1, bound);
      ScanMembersDecides(members[1..], seen + {m.name}, suffix, depth, bound);
    }
  }

  /** The two scanners agree on every tree nested at most 32 deep, and differ exactly
      on deeper trees without repeated names. */
  lemma ScannersAgree(j: Json, suffix: seq<Token>)
    ensures Scan(Tokens(j) + suffix, 0, None) == Scan(Tokens(j) + suffix, 0, Some(32)) <==> !Unique(j) || Depth(j) <= 32
  {
    hide Scan, Tokens, Unique, Depth;
    ScanDecides(j, suffix, 0, None);
    ScanDecides(j, suffix, 0, Some(32));
  }

  /** A document is accepted exactly when it is one tree without repeated names:
      anything after the tree is refused. */
  lemma DocumentAccepted(j: Json, suffix: seq<Token>)
    ensures Scan(Tokens(j) + suffix, 0, None) == Some([]) <==> Unique(j) && suffix == []
  {
    hide Scan, Tokens, Unique, Depth;
    ScanDecides(j, suffix, 0, None);
  }

  /** uniqueKeys passes a tree exactly when no object repeats a name and nothing lies more
      than 32 levels deep; what follows is left. */
  lemma KeysAccepted(j: Json, suffix: seq<Token>)
    ensures Scan(Tokens(j) + suffix, 0, Some(32)) == if Unique(j) && Depth(j) <= 32 then Some(suffix) else None
  {
    hide Scan, Tokens, Unique, Depth;
    ScanDecides(j, suffix, 0, Some(32));
  }
}
