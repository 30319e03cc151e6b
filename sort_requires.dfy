/**
 * The require-sorting codemod: the top-level statements of the form
 * `local NAME = require(ARG)` are moved to the front of the block and
 * sorted stably by NAME; every other statement follows in its original
 * order and the last statement is left alone.
 */
module SortRequires {
  import opened Wrappers
  import opened Syntax

  /** A call of the name `require` with exactly one suffix, an anonymous call. */
  predicate IsRequireCall(call: FunctionCall) {
    && call.prefix.NamePrefix?
    && TokenRefText(call.prefix.name) == "require"
    && |call.suffixes| == 1
    && call.suffixes[0].CallSuffix?
    && call.suffixes[0].callPart.AnonymousCall?
  }

  /**
   * `parse_require_function`: the arguments of `require(...)`, if `e` is such a
   * call. The source matches `Expression::Value { value, .. }`, whose `..`
   * ignores a type assertion, so `require(x) :: T` is a require as well.
   */
  function ParseRequireFunction(e: Expr): (r: Option<FunctionArgs>)
    ensures r.Some? <==>
      || (e.CallExpr? && IsRequireCall(e.call))
      || (e.TypeAssertion? && e.asserted.CallExpr? && IsRequireCall(e.asserted.call))
    ensures r.Some? && e.CallExpr? ==> r.value == e.call.suffixes[0].callPart.args
    ensures r.Some? && e.TypeAssertion? ==> r.value == e.asserted.call.suffixes[0].callPart.args
  {
    match e
    case CallExpr(call) => RequireCallArgs(call)
    case TypeAssertion(CallExpr(call), _, _) => RequireCallArgs(call)
    case _ => None
  }

  function RequireCallArgs(call: FunctionCall): (r: Option<FunctionArgs>)
    ensures r.Some? <==> IsRequireCall(call)
    ensures r.Some? ==> r.value == call.suffixes[0].callPart.args
  {
    match call
    case FunctionCall(NamePrefix(name), suffixes) =>
      if TokenRefText(name) == "require" && |suffixes| == 1
         && suffixes[0].CallSuffix? && suffixes[0].callPart.AnonymousCall?
      then Some(suffixes[0].callPart.args)
      else None
    case _ => None
  }

  /** `is_require_assignment` applied to a statement, as `find_requires` does. */
  predicate IsRequire(s: StmtEntry) {
    && s.stmt.LocalAssignment?
    && |s.stmt.localExpressions| == 1
    && ParseRequireFunction(s.stmt.localExpressions[0].value).Some?
  }

  /** `local NAME = require(ARG) :: T` is a require assignment like `local NAME = require(ARG)`. */
  lemma {:induction false} TypeAssertedRequire(s: StmtEntry, op: TokenRef, ty: TypeInfo)
    requires s.stmt.LocalAssignment? && |s.stmt.localExpressions| == 1
    requires s.stmt.localExpressions[0].value.CallExpr?
    requires IsRequire(s)
    ensures IsRequire(s.(stmt := s.stmt.(localExpressions :=
      [s.stmt.localExpressions[0].(value := TypeAssertion(s.stmt.localExpressions[0].value, op, ty))])))
  {
    var e := s.stmt.localExpressions[0].value;
    assert ParseRequireFunction(TypeAssertion(e, op, ty)).Some?;
  }

  /** Every require assignment of a block is among the statements moved to the front. */
  lemma {:induction false} RequireIsMoved(ss: seq<StmtEntry>, i: nat)
    requires i < |ss| && IsRequire(ss[i])
    ensures ss[i] in Requires(ss)
    ensures ss[i] !in Remainder(ss)
  {
    if i == 0 {
      assert Requires(ss) == [ss[0]] + Requires(ss[1..]);
    } else {
      RequireIsMoved(ss[1..], i - 1);
      assert ss[1..][i - 1] == ss[i];
    }
  }

  /** The statements kept by `find_requires` on each side of the partition. */
  function Requires(ss: seq<StmtEntry>): (r: seq<StmtEntry>)
    ensures forall i :: 0 <= i < |r| ==> IsRequire(r[i])
    ensures |r| <= |ss|
  {
    if ss == [] then []
    else if IsRequire(ss[0]) then [ss[0]] + Requires(ss[1..])
    else Requires(ss[1..])
  }

  function Remainder(ss: seq<StmtEntry>): (r: seq<StmtEntry>)
    ensures forall i :: 0 <= i < |r| ==> !IsRequire(r[i])
    ensures |r| <= |ss|
  {
    if ss == [] then []
    else if IsRequire(ss[0]) then Remainder(ss[1..])
    else [ss[0]] + Remainder(ss[1..])
  }

  /** The partition loses and invents nothing. */
  lemma {:induction false} PartitionIsPermutation(ss: seq<StmtEntry>)
    ensures multiset(Requires(ss)) + multiset(Remainder(ss)) == multiset(ss)
    ensures |Requires(ss)| + |Remainder(ss)| == |ss|
  {
    if ss != [] {
      PartitionIsPermutation(ss[1..]);
      assert ss == [ss[0]] + ss[1..];
    }
  }

  /** With no require statement the remainder is the whole list. */
  lemma {:induction false} NoRequiresRemainder(ss: seq<StmtEntry>)
    requires Requires(ss) == []
    ensures Remainder(ss) == ss
  {
    if ss != [] {
      assert !IsRequire(ss[0]);
      NoRequiresRemainder(ss[1..]);
      assert ss == [ss[0]] + ss[1..];
    }
  }

  /**
   * The sort key: the first declared local name (`name_from_token`). The parser
   * only produces identifier names, so other tokens never reach this point.
   */
  function SortKey(s: StmtEntry): string {
    if s.stmt.LocalAssignment? && s.stmt.names != [] && s.stmt.names[0].value.token.Identifier?
    then s.stmt.names[0].value.token.identifier
    else ""
  }

  /** Lexicographic order on strings, as `Ord for String` compares them. */
  predicate KeyLe(a: string, b: string)
    decreases |a|
  {
    a == [] || (b != [] && (a[0] < b[0] || (a[0] == b[0] && KeyLe(a[1..], b[1..]))))
  }

  lemma {:induction false} KeyLeReflexive(a: string)
    ensures KeyLe(a, a)
    decreases |a|
  {
    if a != [] {
      KeyLeReflexive(a[1..]);
    }
  }

  lemma {:induction false} KeyLeTotal(a: string, b: string)
    ensures KeyLe(a, b) || KeyLe(b, a)
    decreases |a|
  {
    if a != [] && b != [] && a[0] == b[0] {
      KeyLeTotal(a[1..], b[1..]);
    }
  }

  lemma {:induction false} KeyLeTransitive(a: string, b: string, c: string)
    requires KeyLe(a, b) && KeyLe(b, c)
    ensures KeyLe(a, c)
    decreases |a|
  {
    if a != [] && b != [] && c != [] && a[0] == b[0] && b[0] == c[0] {
      KeyLeTransitive(a[1..], b[1..], c[1..]);
    }
  }

  predicate SortedByKey(ss: seq<StmtEntry>) {
    forall i, j :: 0 <= i < j < |ss| ==> KeyLe(SortKey(ss[i]), SortKey(ss[j]))
  }

  /** Places `x` before the first element whose key is not smaller than its own. */
  function Insert(x: StmtEntry, t: seq<StmtEntry>): (r: seq<StmtEntry>)
    ensures |r| == |t| + 1
  {
    if t == [] || KeyLe(SortKey(x), SortKey(t[0])) then [x] + t
    else [t[0]] + Insert(x, t[1..])
  }

  /** `sort_by_key` on the requires: a stable insertion sort. */
  function SortByKey(ss: seq<StmtEntry>): (r: seq<StmtEntry>)
    ensures |r| == |ss|
  {
    if ss == [] then [] else Insert(ss[0], SortByKey(ss[1..]))
  }

  lemma {:induction false} InsertPermutation(x: StmtEntry, t: seq<StmtEntry>)
    ensures multiset(Insert(x, t)) == multiset([x] + t)
  {
    if t != [] && !KeyLe(SortKey(x), SortKey(t[0])) {
      InsertPermutation(x, t[1..]);
      assert t == [t[0]] + t[1..];
    }
  }

  /** Every element of an insertion is the inserted one or an old one. */
  lemma {:induction false} InsertMembers(x: StmtEntry, t: seq<StmtEntry>)
    ensures forall y :: y in Insert(x, t) ==> y == x || y in t
  {
    InsertPermutation(x, t);
    forall y | y in Insert(x, t)
      ensures y == x || y in t
    {
      assert y in multiset(Insert(x, t));
      assert y in multiset([x] + t);
    }
  }

  /** In a sorted list the head's key is at most every later key. */
  lemma {:induction false} HeadBelowRest(t: seq<StmtEntry>)
    requires SortedByKey(t) && t != []
    ensures forall y :: y in t[1..] ==> KeyLe(SortKey(t[0]), SortKey(y))
  {
    forall y | y in t[1..]
      ensures KeyLe(SortKey(t[0]), SortKey(y))
    {
      var k :| 0 <= k < |t[1..]| && t[1..][k] == y;
      assert t[k + 1] == y;
    }
  }

  lemma {:induction false} InsertKeepsSorted(x: StmtEntry, t: seq<StmtEntry>)
    requires SortedByKey(t)
    ensures SortedByKey(Insert(x, t))
  {
    if t == [] {
    } else if KeyLe(SortKey(x), SortKey(t[0])) {
      var r := [x] + t;
      forall i, j | 0 <= i < j < |r|
        ensures KeyLe(SortKey(r[i]), SortKey(r[j]))
      {
        if i == 0 && j > 1 {
          KeyLeTransitive(SortKey(x), SortKey(t[0]), SortKey(t[j - 1]));
        }
      }
    } else {
      KeyLeTotal(SortKey(x), SortKey(t[0]));
      InsertKeepsSorted(x, t[1..]);
      var rest := Insert(x, t[1..]);
      InsertMembers(x, t[1..]);
      HeadBelowRest(t);
      var r := [t[0]] + rest;
      forall i, j | 0 <= i < j < |r|
        ensures KeyLe(SortKey(r[i]), SortKey(r[j]))
      {
        if i == 0 {
          assert rest[j - 1] in rest;
        }
      }
    }
  }

  lemma {:induction false} SortByKeySorted(ss: seq<StmtEntry>)
    ensures SortedByKey(SortByKey(ss))
    ensures multiset(SortByKey(ss)) == multiset(ss)
  {
    if ss != [] {
      SortByKeySorted(ss[1..]);
      InsertKeepsSorted(ss[0], SortByKey(ss[1..]));
      InsertPermutation(ss[0], SortByKey(ss[1..]));
      assert ss == [ss[0]] + ss[1..];
    }
  }

  /** The elements of `ss` whose key is `k`, in order. */
  function WithKey(k: string, ss: seq<StmtEntry>): seq<StmtEntry> {
    if ss == [] then []
    else if SortKey(ss[0]) == k then [ss[0]] + WithKey(k, ss[1..])
    else WithKey(k, ss[1..])
  }

  lemma {:induction false} InsertStable(k: string, x: StmtEntry, t: seq<StmtEntry>)
    ensures WithKey(k, Insert(x, t)) == (if SortKey(x) == k then [x] else []) + WithKey(k, t)
  {
    if t != [] && !KeyLe(SortKey(x), SortKey(t[0])) {
      InsertStable(k, x, t[1..]);
      KeyLeReflexive(SortKey(x));
      assert SortKey(t[0]) != SortKey(x);
      var r := Insert(x, t);
      assert r == [t[0]] + Insert(x, t[1..]);
      assert r[1..] == Insert(x, t[1..]);
    }
  }

  /** Stability: requires sharing a name keep their input order. */
  lemma {:induction false} SortByKeyStable(k: string, ss: seq<StmtEntry>)
    ensures WithKey(k, SortByKey(ss)) == WithKey(k, ss)
  {
    if ss != [] {
      SortByKeyStable(k, ss[1..]);
      InsertStable(k, ss[0], SortByKey(ss[1..]));
    }
  }

  /** `sort_requires`, on the top-level block of the file. */
  function SortRequiresBlock(block: Block): (r: Block)
    ensures r.lastStmt == block.lastStmt
    ensures Requires(block.stmts) == [] ==> r == block
    ensures Requires(block.stmts) != [] ==>
      r.stmts == SortByKey(Requires(block.stmts)) + Remainder(block.stmts)
  {
    var found := Requires(block.stmts);
    if found == [] then block
    else block.(stmts := SortByKey(found) + Remainder(block.stmts))
  }

  /**
   * What the codemod promises about the statement list: it is a permutation of
   * the input, it starts with every require in sorted order, the other
   * statements follow in their original order, and equal names keep their order.
   */
  lemma {:induction false} SortRequiresSpec(block: Block)
    ensures multiset(SortRequiresBlock(block).stmts) == multiset(block.stmts)
    ensures var n := |Requires(block.stmts)|;
      var out := SortRequiresBlock(block).stmts;
      && n <= |out|
      && (forall i :: 0 <= i < n ==> IsRequire(out[i]))
      && SortedByKey(out[..n])
      && out[n..] == Remainder(block.stmts)
      && (forall k :: WithKey(k, out[..n]) == WithKey(k, Requires(block.stmts)))
  {
    var rs := Requires(block.stmts);
    PartitionIsPermutation(block.stmts);
    SortByKeySorted(rs);
    var out := SortRequiresBlock(block).stmts;
    if rs == [] {
      NoRequiresRemainder(block.stmts);
      assert out[..0] == [];
    } else {
      assert out[..|rs|] == SortByKey(rs);
      forall i | 0 <= i < |rs|
        ensures IsRequire(out[i])
      {
        assert out[i] in multiset(rs);
      }
      forall k
        ensures WithKey(k, out[..|rs|]) == WithKey(k, rs)
      {
        SortByKeyStable(k, rs);
      }
    }
  }
}
