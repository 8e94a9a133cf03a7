/**
 * Reading and writing the options tree along a token path, as
 * `get_nested_value`, `_ensure_sequence` and `set_nested_value` do in
 * chart_payloads.py. Python mutates the tree in place through a cursor; here a
 * tree is a value, and a write below the cursor is carried up to the root by
 * `ReplaceAt`.
 */
module TreePatch {
  import opened Wrappers
  import opened JsonTree
  import opened ChartErrors
  import opened PathGrammar

  // ---------------------------------------------------------------- reading

  /**
   * One step of `get_nested_value`: an index into any `Sequence` (a list, or a
   * string, whose items are its characters), a field of a mapping.
   */
  function GetChild(j: Json, t: Token): (r: Option<Json>)
    ensures t.Field? ==> (r.None? <==> !(j.JObj? && t.name in Keys(j.fields)))
    ensures t.Index? ==> (r.None? <==> AsSequence(j).None? || t.i >= |AsSequence(j).value|)
    ensures t.Index? && r.Some? ==> r.value == AsSequence(j).value[t.i]
  {
    match t
    case Field(k) => if j.JObj? then Lookup(j.fields, k) else None
    case Index(i) =>
      var items := AsSequence(j);
      if items.None? || i >= |items.value| then None else Some(items.value[i])
  }

  /** The walk of `get_nested_value`; `None` where it returns `None` early. */
  function Walk(j: Json, p: seq<Token>): Option<Json>
    decreases |p|
  {
    if p == [] then Some(j)
    else match GetChild(j, p[0])
      case None => None
      case Some(c) => Walk(c, p[1..])
  }

  /** `get_nested_value`: the value at the path, or `None` when the walk stops. */
  function GetNested(j: Json, p: seq<Token>): Json {
    Walk(j, p).GetOr(JNull)
  }

  /** Reading along `a + b` is reading `a`, then reading `b` from there. */
  lemma {:induction false} WalkAppend(j: Json, a: seq<Token>, b: seq<Token>)
    ensures Walk(j, a + b) == match Walk(j, a) case None => None case Some(n) => Walk(n, b)
    decreases |a|
  {
    if a != [] {
      assert (a + b)[0] == a[0] && (a + b)[1..] == a[1..] + b;
      var c := GetChild(j, a[0]);
      if c.Some? {
        WalkAppend(c.value, a[1..], b);
      }
    } else {
      assert a + b == b;
    }
  }

  /** A missing key, an index past the end, or a token of the wrong kind ends the read with `None`. */
  lemma GetNestedStops(j: Json, p: seq<Token>, d: nat)
    requires d < |p| && Walk(j, p[..d]).Some?
    requires GetChild(Walk(j, p[..d]).value, p[d]).None?
    ensures Walk(j, p) == None && GetNested(j, p) == JNull
  {
    assert p == p[..d] + ([p[d]] + p[d + 1..]);
    WalkAppend(j, p[..d], [p[d]] + p[d + 1..]);
  }

  // ---------------------------------------------------------------- the container skeleton

  /** Whether a container has the kind a token needs: a list for an index, a mapping for a field. */
  predicate KindOk(j: Json, t: Token) {
    (t.Index? && j.JArr?) || (t.Field? && j.JObj?)
  }

  /** The empty container created for the token that comes next: `{}` for a field, `[]` for an index. */
  function Fresh(next: Token): (r: Json)
    ensures KindOk(r, next)
    ensures r == JObj([]) || r == JArr([])
  {
    if next.Field? then JObj([]) else JArr([])
  }

  /** One step into a mutable container: list items or mapping members only, never into a string. */
  function Child(j: Json, t: Token): (r: Option<Json>)
    ensures r.Some? ==> KindOk(j, t)
    ensures r.Some? ==> GetChild(j, t) == r
  {
    match t
    case Field(k) => if j.JObj? then Lookup(j.fields, k) else None
    case Index(i) => if j.JArr? && i < |j.items| then Some(j.items[i]) else None
  }

  /** The node a path leads to through containers only. */
  function At(j: Json, p: seq<Token>): Option<Json>
    decreases |p|
  {
    if p == [] then Some(j)
    else match Child(j, p[0])
      case None => None
      case Some(c) => At(c, p[1..])
  }

  /** `j` with the child at `t` replaced by `c` (`j` itself when there is no such child). */
  function Attach(j: Json, t: Token, c: Json): (r: Json)
    requires Child(j, t).Some?
    ensures Child(r, t) == Some(c)
    ensures KindOk(r, t)
  {
    match t
    case Field(k) => JObj(Put(j.fields, k, c))
    case Index(i) => JArr(j.items[i := c])
  }

  /** The tree with the node at `p` replaced by `x`; the tree is unchanged when `p` leads nowhere. */
  function ReplaceAt(j: Json, p: seq<Token>, x: Json): Json
    decreases |p|
  {
    if p == [] then x
    else match Child(j, p[0])
      case None => j
      case Some(c) => Attach(j, p[0], ReplaceAt(c, p[1..], x))
  }

  /** A node reached through containers is what `get_nested_value` reads there too. */
  lemma {:induction false} AtIsWalk(j: Json, p: seq<Token>)
    requires At(j, p).Some?
    ensures Walk(j, p) == At(j, p)
    decreases |p|
  {
    if p != [] {
      AtIsWalk(Child(j, p[0]).value, p[1..]);
    }
  }

  lemma {:induction false} AtAppend(j: Json, a: seq<Token>, b: seq<Token>)
    ensures At(j, a + b) == match At(j, a) case None => None case Some(n) => At(n, b)
    decreases |a|
  {
    if a != [] {
      assert (a + b)[0] == a[0] && (a + b)[1..] == a[1..] + b;
      var c := Child(j, a[0]);
      if c.Some? {
        AtAppend(c.value, a[1..], b);
      }
    } else {
      assert a + b == b;
    }
  }

  lemma AtSnoc(j: Json, p: seq<Token>, t: Token)
    requires At(j, p).Some?
    ensures At(j, p + [t]) == Child(At(j, p).value, t)
  {
    AtAppend(j, p, [t]);
    var n := At(j, p).value;
    if Child(n, t).Some? {
      assert [t][1..] == [];
    }
  }

  /** After a replacement the new node is where it was put. */
  lemma {:induction false} AtReplace(j: Json, p: seq<Token>, x: Json)
    requires At(j, p).Some?
    ensures At(ReplaceAt(j, p, x), p) == Some(x)
    decreases |p|
  {
    if p != [] {
      var c := Child(j, p[0]).value;
      AtReplace(c, p[1..], x);
    }
  }

  /** Putting back the node that is already there changes nothing. */
  lemma {:induction false} ReplaceSame(j: Json, p: seq<Token>)
    requires At(j, p).Some?
    ensures ReplaceAt(j, p, At(j, p).value) == j
    decreases |p|
  {
    if p != [] {
      var c := Child(j, p[0]).value;
      ReplaceSame(c, p[1..]);
      match p[0]
      case Field(k) => PutSame(j.fields, k);
      case Index(i) =>
    }
  }

  lemma AttachAttach(j: Json, t: Token, c: Json, d: Json)
    requires Child(j, t).Some?
    ensures Attach(Attach(j, t, c), t, d) == Attach(j, t, d)
  {
    match t
    case Field(k) => PutPut(j.fields, k, c, d);
    case Index(i) =>
  }

  /** Two replacements, the second below the first, are one replacement of a modified subtree. */
  lemma {:induction false} ReplaceCompose(j: Json, p: seq<Token>, q: seq<Token>, y: Json, x: Json)
    requires At(j, p).Some?
    ensures ReplaceAt(ReplaceAt(j, p, y), p + q, x) == ReplaceAt(j, p, ReplaceAt(y, q, x))
    decreases |p|
  {
    if p == [] {
      assert p + q == q;
    } else {
      var t := p[0];
      var c := Child(j, t).value;
      assert (p + q)[0] == t && (p + q)[1..] == p[1..] + q;
      ReplaceCompose(c, p[1..], q, y, x);
      var j1 := Attach(j, t, ReplaceAt(c, p[1..], y));
      assert Child(j1, t) == Some(ReplaceAt(c, p[1..], y));
      AttachAttach(j, t, ReplaceAt(c, p[1..], y), ReplaceAt(ReplaceAt(c, p[1..], y), p[1..] + q, x));
    }
  }

  /** Replacing one child keeps every other child. */
  lemma AttachOther(j: Json, t: Token, c: Json, u: Token)
    requires Child(j, t).Some? && u != t
    ensures GetChild(Attach(j, t, c), u) == GetChild(j, u)
  {
  }

  /**
   * What a replacement does not touch: a path that leaves `p` before `p` ends
   * reads the same before and after.
   */
  lemma {:induction false} ReplaceFrame(j: Json, p: seq<Token>, x: Json, q: seq<Token>, d: nat)
    requires At(j, p).Some?
    requires d < |p| && d < |q| && p[..d] == q[..d] && p[d] != q[d]
    ensures Walk(ReplaceAt(j, p, x), q) == Walk(j, q)
    decreases d
  {
    var t := p[0];
    var c := Child(j, t).value;
    var j1 := Attach(j, t, ReplaceAt(c, p[1..], x));
    if d == 0 {
      AttachOther(j, t, ReplaceAt(c, p[1..], x), q[0]);
    } else {
      assert q[0] == p[..d][0] == t;
      assert p[1..][..d - 1] == p[..d][1..] == q[..d][1..] == q[1..][..d - 1];
      ReplaceFrame(c, p[1..], x, q[1..], d - 1);
      assert GetChild(j1, t) == Some(ReplaceAt(c, p[1..], x));
    }
  }

  // ---------------------------------------------------------------- list padding

  /** `items` extended with `fill` until it has at least `n` entries. */
  function PadTo(items: seq<Json>, n: nat, fill: Json): (r: seq<Json>)
    ensures |r| == if |items| >= n then |items| else n
    ensures forall k :: 0 <= k < |items| ==> r[k] == items[k]
    ensures forall k :: |items| <= k < |r| ==> r[k] == fill
  {
    if |items| >= n then items else items + seq(n - |items|, _ => fill)
  }

  /**
   * The list after `_ensure_sequence(items, i, next)`: padded with fresh
   * containers for `next` up to position `i`, and the item at `i` replaced by a
   * fresh container when it is not of the kind `next` needs.
   */
  function EnsuredItems(items: seq<Json>, i: nat, next: Token): (r: seq<Json>)
    ensures |r| == if |items| > i then |items| else i + 1
    ensures forall k :: 0 <= k < |items| && k != i ==> r[k] == items[k]
    ensures forall k :: |items| <= k < |r| && k != i ==> r[k] == Fresh(next)
    ensures KindOk(r[i], next)
    ensures i < |items| && KindOk(items[i], next) ==> r == items
    ensures !(i < |items| && KindOk(items[i], next)) ==> r[i] == Fresh(next)
  {
    var padded := PadTo(items, i + 1, Fresh(next));
    if KindOk(padded[i], next) then padded else padded[i := Fresh(next)]
  }

  /**
   * `_ensure_sequence`: the padding loop, then the kind repair; returns the
   * new list and the container now at `index`.
   */
  method EnsureSequence(container: seq<Json>, index: nat, next: Token) returns (items: seq<Json>, target: Json)
    ensures items == EnsuredItems(container, index, next)
    ensures target == items[index]
  {
    items := container;
    while |items| <= index
      invariant |container| <= |items| <= if |container| > index then |container| else index + 1
      invariant items == PadTo(container, |items|, Fresh(next))
    {
      items := items + [Fresh(next)];
    }
    var current := items[index];
    if next.Field? && !current.JObj? {
      current := JObj([]);
      items := items[index := current];
    }
    if next.Index? && !current.JArr? {
      current := JArr([]);
      items := items[index := current];
    }
    target := items[index];
  }

  // ---------------------------------------------------------------- writing

  /** What `set_nested_value` leaves: the tree as it then is, and the previous value or the error raised. */
  datatype SetOutcome = SetOutcome(tree: Json, result: Result<Json, PayloadError>)

  /** The error raised for a token that meets a container of the wrong kind. */
  function KindError(t: Token): PayloadError {
    match t
    case Index(i) => ExpectedList(i)
    case Field(k) => ExpectedMapping(k)
  }
  /**
   * The mapping member an intermediate field leads to: the existing member if
   * it is a container of either kind, otherwise a fresh container for `next`.
   */
  function Descend(fs: Fields, k: string, next: Token): (r: Json)
    ensures Lookup(fs, k).Some? && IsContainer(Lookup(fs, k).value) ==> r == Lookup(fs, k).value
    ensures !(Lookup(fs, k).Some? && IsContainer(Lookup(fs, k).value)) ==> r == Fresh(next)
    ensures IsContainer(r)
  {
    var c := Lookup(fs, k);
    if c.Some? && IsContainer(c.value) then c.value else Fresh(next)
  }

  /** Whether an intermediate step finds what it needs and so writes nothing. */
  predicate Usable(j: Json, t: Token, next: Token) {
    Child(j, t).Some? && (if t.Index? then KindOk(Child(j, t).value, next) else IsContainer(Child(j, t).value))
  }

  /**
   * The node under the cursor after an intermediate step: `_ensure_sequence`
   * for an index, a fresh container for a missing or scalar member.
   */
  function Ensure(j: Json, t: Token, next: Token): (r: Json)
    requires KindOk(j, t)
    ensures Child(r, t).Some? && KindOk(r, t)
    ensures t.Index? ==> KindOk(Child(r, t).value, next)
    ensures IsContainer(Child(r, t).value)
    ensures Usable(j, t, next) ==> r == j
    ensures !Usable(j, t, next) ==> Child(r, t) == Some(Fresh(next))
  {
    match t
    case Index(i) => JArr(EnsuredItems(j.items, i, next))
    case Field(k) =>
      var r := JObj(Put(j.fields, k, Descend(j.fields, k, next)));
      if Usable(j, t, next) then PutSame(j.fields, k); r else r
  }

  /** The write at the last token: pad a list with `None` up to the index, or set the member. */
  function WriteAt(j: Json, t: Token, v: Json): (o: SetOutcome)
    requires KindOk(j, t)
    ensures o.result.Success? && Child(o.tree, t) == Some(v) && KindOk(o.tree, t)
    ensures o.result.value == Child(j, t).GetOr(JNull)
  {
    match t
    case Index(i) =>
      var items := PadTo(j.items, i + 1, JNull);
      SetOutcome(JArr(items[i := v]), Success(items[i]))
    case Field(k) =>
      SetOutcome(JObj(Put(j.fields, k, v)), Success(Lookup(j.fields, k).GetOr(JNull)))
  }

  /**
   * `set_nested_value(j, ts, v)` read as a function of the tree: each token
   * first checks the kind of the node under the cursor, then either writes
   * (last token) or steps down. On an error the tree is what the in-place
   * updates made of it before the raise.
   */
  function Set(j: Json, ts: seq<Token>, v: Json): SetOutcome
    decreases |ts|
  {
    if ts == [] then SetOutcome(j, Success(JNull))
    else if !KindOk(j, ts[0]) then SetOutcome(j, Failure(KindError(ts[0])))
    else if |ts| == 1 then WriteAt(j, ts[0], v)
    else
      var cur1 := Ensure(j, ts[0], ts[1]);
      var o := Set(Child(cur1, ts[0]).value, ts[1..], v);
      SetOutcome(Attach(cur1, ts[0], o.tree), o.result)
  }

  /** The outcome of a write below `p`, seen from the root. */
  function Lift(doc: Json, p: seq<Token>, o: SetOutcome): SetOutcome {
    SetOutcome(ReplaceAt(doc, p, o.tree), o.result)
  }

  /** Writing back a stepped-into node, then writing below it, is one write at the node. */
  lemma LiftStep(doc: Json, p: seq<Token>, cur1: Json, t: Token, o: SetOutcome)
    requires At(doc, p).Some? && Child(cur1, t).Some?
    ensures At(ReplaceAt(doc, p, cur1), p + [t]) == Child(cur1, t)
    ensures Lift(doc, p, SetOutcome(Attach(cur1, t, o.tree), o.result)) == Lift(ReplaceAt(doc, p, cur1), p + [t], o)
  {
    AtReplace(doc, p, cur1);
    AtSnoc(ReplaceAt(doc, p, cur1), p, t);
    ReplaceCompose(doc, p, [t], cur1, o.tree);
    assert [t][1..] == [];
    assert ReplaceAt(cur1, [t], o.tree) == Attach(cur1, t, ReplaceAt(Child(cur1, t).value, [], o.tree));
  }

  /** The loop invariant carried past an intermediate token. */
  lemma DescendGoal(doc: Json, tokens: seq<Token>, idx: nat, current: Json, v: Json)
    requires idx + 1 < |tokens| && At(doc, tokens[..idx]) == Some(current)
    requires KindOk(current, tokens[idx])
    ensures var cur1 := Ensure(current, tokens[idx], tokens[idx + 1]);
      At(ReplaceAt(doc, tokens[..idx], cur1), tokens[..idx + 1]) == Child(cur1, tokens[idx])
      && Lift(doc, tokens[..idx], Set(current, tokens[idx..], v))
        == Lift(ReplaceAt(doc, tokens[..idx], cur1), tokens[..idx + 1], Set(Child(cur1, tokens[idx]).value, tokens[idx + 1..], v))
  {
    var ts := tokens[idx..];
    assert ts[0] == tokens[idx] && ts[1] == tokens[idx + 1] && ts[1..] == tokens[idx + 1..];
    assert tokens[..idx + 1] == tokens[..idx] + [tokens[idx]];
    var cur1 := Ensure(current, tokens[idx], tokens[idx + 1]);
    LiftStep(doc, tokens[..idx], cur1, tokens[idx], Set(Child(cur1, tokens[idx]).value, tokens[idx + 1..], v));
  }

  /** The loop invariant at a token that meets the wrong kind of container: that is the outcome. */
  lemma FailGoal(doc: Json, tokens: seq<Token>, idx: nat, current: Json, v: Json)
    requires idx < |tokens| && At(doc, tokens[..idx]) == Some(current)
    requires !KindOk(current, tokens[idx])
    ensures Lift(doc, tokens[..idx], Set(current, tokens[idx..], v)) == SetOutcome(doc, Failure(KindError(tokens[idx])))
  {
    assert tokens[idx..][0] == tokens[idx];
    ReplaceSame(doc, tokens[..idx]);
  }

  /** The loop invariant at the last token: the final write is the whole outcome. */
  lemma LastGoal(doc: Json, tokens: seq<Token>, current: Json, v: Json)
    requires tokens != [] && At(doc, tokens[..|tokens| - 1]) == Some(current)
    requires KindOk(current, tokens[|tokens| - 1])
    ensures Lift(doc, tokens[..|tokens| - 1], Set(current, tokens[|tokens| - 1..], v))
      == Lift(doc, tokens[..|tokens| - 1], WriteAt(current, tokens[|tokens| - 1], v))
  {
    assert tokens[|tokens| - 1..] == [tokens[|tokens| - 1]];
  }

  /** The loop invariant once every token is consumed: nothing is left to write. */
  lemma EndGoal(doc: Json, tokens: seq<Token>, current: Json, v: Json)
    requires At(doc, tokens[..|tokens|]) == Some(current)
    ensures Lift(doc, tokens[..|tokens|], Set(current, tokens[|tokens|..], v)) == SetOutcome(doc, Success(JNull))
  {
    assert tokens[|tokens|..] == [] && tokens[..|tokens|] == tokens;
    ReplaceSame(doc, tokens);
  }

  /**
   * The write at the last token, in place on the node the cursor points at:
   * pad a list with `None` up to the index, or set the mapping member.
   */
  method WriteLast(current: Json, token: Token, value: Json) returns (updated: Json, previous: Json)
    requires KindOk(current, token)
    ensures WriteAt(current, token, value) == SetOutcome(updated, Success(previous))
  {
    match token
    case Index(i) =>
      var items := current.items;
      while |items| <= i
        invariant |current.items| <= |items| <= if |current.items| > i then |current.items| else i + 1
        invariant items == PadTo(current.items, |items|, JNull)
      {
        items := items + [JNull];
      }
      previous := items[i];
      items := items[i := value];
      updated := JArr(items);
    case Field(k) =>
      previous := Lookup(current.fields, k).GetOr(JNull);
      updated := JObj(Put(current.fields, k, value));
  }

  /**
   * The step at an intermediate token, in place on the node the cursor points
   * at: `_ensure_sequence` for an index; for a field, a fresh container when
   * the member is missing or not a container. Returns the updated node and the
   * child the cursor moves to.
   */
  method DescendInto(current: Json, token: Token, next: Token) returns (cur1: Json, child: Json)
    requires KindOk(current, token)
    ensures cur1 == Ensure(current, token, next)
    ensures Child(cur1, token) == Some(child)
  {
    match token
    case Index(i) =>
      var items, target := EnsureSequence(current.items, i, next);
      cur1 := JArr(items);
      child := target;
    case Field(k) =>
      var member := Lookup(current.fields, k);
      cur1 := current;
      if member.None? || !IsContainer(member.value) {
        cur1 := JObj(Put(current.fields, k, Fresh(next)));
      }
      child := Lookup(cur1.fields, k).value;
  }

  /**
   * `set_nested_value`'s own loop: `current` is the node the cursor points at,
   * `doc` the whole tree, and each in-place update is written back into `doc`.
   */
  method SetNestedValue(container: Json, tokens: seq<Token>, value: Json) returns (doc: Json, r: Result<Json, PayloadError>)
    ensures SetOutcome(doc, r) == Set(container, tokens, value)
    ensures r.Failure? ==> doc == container
  {
    doc := container;
    var current := container;
    var idx := 0;
    ghost var goal := Set(container, tokens, value);
    SetFailureLeavesTree(container, tokens, value);
    while idx < |tokens|
      invariant 0 <= idx <= |tokens|
      invariant At(doc, tokens[..idx]) == Some(current)
      invariant Lift(doc, tokens[..idx], Set(current, tokens[idx..], value)) == goal
    {
      var token := tokens[idx];
      if !KindOk(current, token) {
        FailGoal(doc, tokens, idx, current, value);
        return doc, Failure(KindError(token));
      }
      if idx == |tokens| - 1 {
        var updated, previous := WriteLast(current, token, value);
        LastGoal(doc, tokens, current, value);
        doc := ReplaceAt(doc, tokens[..idx], updated);
        return doc, Success(previous);
      }
      var cur1, child := DescendInto(current, token, tokens[idx + 1]);
      DescendGoal(doc, tokens, idx, current, value);
      doc := ReplaceAt(doc, tokens[..idx], cur1);
      current := child;
      idx := idx + 1;
    }
    EndGoal(doc, tokens, current, value);
    r := Success(JNull);
  }

  // ---------------------------------------------------------------- what a write promises

  /** A fresh container for the first token never makes the write fail. */
  lemma {:induction false} FreshNeverFails(ts: seq<Token>, v: Json)
    requires ts != []
    ensures Set(Fresh(ts[0]), ts, v).result.Success?
    decreases |ts|
  {
    if |ts| > 1 {
      assert !Usable(Fresh(ts[0]), ts[0], ts[1]);
      assert ts[1..][0] == ts[1];
      FreshNeverFails(ts[1..], v);
    }
  }

  lemma AttachSame(j: Json, t: Token)
    requires Child(j, t).Some?
    ensures Attach(j, t, Child(j, t).value) == j
  {
    match t
    case Field(k) => PutSame(j.fields, k);
    case Index(i) =>
  }

  /**
   * A failing write leaves the tree exactly as it was: `set_nested_value` can
   * only raise before its first in-place update, because every container it
   * creates or repairs has the kind the next token needs.
   */
  lemma {:induction false} SetFailureLeavesTree(j: Json, ts: seq<Token>, v: Json)
    ensures Set(j, ts, v).result.Failure? ==> Set(j, ts, v).tree == j
    decreases |ts|
  {
    if |ts| > 1 && KindOk(j, ts[0]) {
      var cur1 := Ensure(j, ts[0], ts[1]);
      var child := Child(cur1, ts[0]).value;
      SetFailureLeavesTree(child, ts[1..], v);
      if Usable(j, ts[0], ts[1]) {
        AttachSame(j, ts[0]);
      } else {
        assert ts[1..][0] == ts[1];
        FreshNeverFails(ts[1..], v);
      }
    }
  }

  /** `set_nested_value` only ever raises because a container has the wrong kind for its token. */
  lemma {:induction false} SetErrorIsKind(j: Json, ts: seq<Token>, v: Json)
    ensures Set(j, ts, v).result.Failure? ==>
      (Set(j, ts, v).result.error.ExpectedList? || Set(j, ts, v).result.error.ExpectedMapping?)
    decreases |ts|
  {
    if |ts| > 1 && KindOk(j, ts[0]) {
      var cur1 := Ensure(j, ts[0], ts[1]);
      SetErrorIsKind(Child(cur1, ts[0]).value, ts[1..], v);
    }
  }

  /** After a write through mutable containers, the path leads to the written value. */
  lemma {:induction false} SetThenAt(j: Json, ts: seq<Token>, v: Json)
    requires ts != [] && Set(j, ts, v).result.Success?
    ensures At(Set(j, ts, v).tree, ts) == Some(v)
    decreases |ts|
  {
    var t := ts[0];
    if |ts| == 1 {
      assert ts[1..] == [];
    } else {
      var cur1 := Ensure(j, t, ts[1]);
      var o := Set(Child(cur1, t).value, ts[1..], v);
      SetThenAt(Child(cur1, t).value, ts[1..], v);
      assert Child(Attach(cur1, t, o.tree), t) == Some(o.tree);
    }
  }

  /** Write-then-read: once `set_nested_value` returns, `get_nested_value` on the same tokens reads the value. */
  lemma SetThenGet(j: Json, ts: seq<Token>, v: Json)
    requires ts != [] && Set(j, ts, v).result.Success?
    ensures Walk(Set(j, ts, v).tree, ts) == Some(v)
    ensures GetNested(Set(j, ts, v).tree, ts) == v
  {
    SetThenAt(j, ts, v);
    AtIsWalk(Set(j, ts, v).tree, ts);
  }

  /** An empty container has no child at all. */
  lemma FreshHasNoPath(next: Token, p: seq<Token>)
    requires p != []
    ensures At(Fresh(next), p) == None
  {
  }

  /**
   * What `set_nested_value` returns: the value that was at the final position
   * before the write, or `None` when there was none (a missing member, a
   * position past the end, or a container that had to be created or replaced).
   */
  lemma {:induction false} SetReturnsPrevious(j: Json, ts: seq<Token>, v: Json)
    requires ts != [] && Set(j, ts, v).result.Success?
    ensures Set(j, ts, v).result.value == At(j, ts).GetOr(JNull)
    decreases |ts|
  {
    var t := ts[0];
    if |ts| == 1 {
      assert ts[1..] == [];
    } else {
      var cur1 := Ensure(j, t, ts[1]);
      var c := Child(cur1, t).value;
      SetReturnsPrevious(c, ts[1..], v);
      assert ts[1..][0] == ts[1];
      if !Usable(j, t, ts[1]) {
        FreshHasNoPath(ts[1], ts[1..]);
        if Child(j, t).Some? {
          assert Child(Child(j, t).value, ts[1]).None?;
        }
      }
    }
  }

  /**
   * `get_nested_value` and `set_nested_value` disagree about strings: the read
   * indexes into a string, the write replaces it with a list. Here the read
   * gives `"y"` while the write reports no previous value.
   */
  lemma SetAndGetDisagreeOnStrings()
    ensures var j := JObj([("a", JStr("xyz"))]);
      var ts := [Field("a"), Index(1)];
      GetNested(j, ts) == JStr("y") && Set(j, ts, JInt(7)).result == Success(JNull)
  {
    var j := JObj([("a", JStr("xyz"))]);
    var ts := [Field("a"), Index(1)];
    assert Lookup(j.fields, "a") == Some(JStr("xyz"));
    assert ts[1..] == [Index(1)] && ts[1..][1..] == [];
    assert AsSequence(JStr("xyz")).value[1] == JStr(['y']);
    assert Walk(JStr("y"), []) == Some(JStr("y"));
    assert !Usable(j, ts[0], ts[1]);
    SetReturnsPrevious(j, ts, JInt(7));
  }

  /**
   * Where the write raises: at token `d`, the node the path has reached in the
   * original tree has the wrong kind, and it is either the root or a container
   * met through a field (a list item met through an index would have been
   * repaired by `_ensure_sequence`, a scalar member replaced by a fresh container).
   */
  predicate Clash(j: Json, ts: seq<Token>, d: nat) {
    d < |ts| && At(j, ts[..d]).Some? && !KindOk(At(j, ts[..d]).value, ts[d])
    && (d == 0 || (ts[d - 1].Field? && IsContainer(At(j, ts[..d]).value)))
  }

  lemma AtUnfold(j: Json, ts: seq<Token>, d: nat)
    requires 0 < d <= |ts| && Child(j, ts[0]).Some?
    ensures At(j, ts[..d]) == At(Child(j, ts[0]).value, ts[1..][..d - 1])
  {
    assert ts[..d][0] == ts[0] && ts[..d][1..] == ts[1..][..d - 1];
  }

  /** A clash makes the write raise, with the error for the token at the clash. */
  lemma {:induction false} ClashRaises(j: Json, ts: seq<Token>, v: Json, d: nat)
    requires Clash(j, ts, d)
    ensures Set(j, ts, v).result == Failure(KindError(ts[d]))
    decreases d
  {
    if d > 0 {
      assert ts[..d][0] == ts[0];
      var c := Child(j, ts[0]).value;
      AtUnfold(j, ts, d);
      assert ts[1..][0] == ts[1];
      if d == 1 {
        assert ts[1..][..0] == [];
        assert Usable(j, ts[0], ts[1]);
      } else {
        AtUnfold(c, ts[1..], d - 1);
        assert ts[1..][..d - 1][0] == ts[1];
        assert Child(c, ts[1]).Some?;
        assert Usable(j, ts[0], ts[1]);
        assert ts[1..][d - 2] == ts[d - 1] && ts[1..][d - 1] == ts[d];
        assert Clash(c, ts[1..], d - 1);
        ClashRaises(c, ts[1..], v, d - 1);
      }
    }
  }

  /** A write that raises has met a clash. */
  lemma {:induction false} RaiseHasClash(j: Json, ts: seq<Token>, v: Json) returns (d: nat)
    requires Set(j, ts, v).result.Failure?
    ensures Clash(j, ts, d)
    decreases |ts|
  {
    if !KindOk(j, ts[0]) {
      d := 0;
      assert ts[..0] == [];
    } else {
      var t := ts[0];
      assert ts[1..][0] == ts[1];
      if !Usable(j, t, ts[1]) {
        FreshNeverFails(ts[1..], v);
        assert false;
      }
      var c := Child(j, t).value;
      if !KindOk(c, ts[1]) {
        d := 1;
        AtUnfold(j, ts, 1);
        assert ts[1..][..0] == [];
      } else {
        var e := RaiseHasClash(c, ts[1..], v);
        assert e > 0;
        d := e + 1;
        AtUnfold(j, ts, d);
        assert ts[1..][e - 1] == ts[d - 1] && ts[1..][e] == ts[d];
      }
    }
  }

  /** `set_nested_value` raises exactly when there is a clash. */
  lemma SetRaisesIffClash(j: Json, ts: seq<Token>, v: Json)
    ensures Set(j, ts, v).result.Failure? <==> exists d :: Clash(j, ts, d)
  {
    if Set(j, ts, v).result.Failure? {
      var d := RaiseHasClash(j, ts, v);
    }
    if exists d :: Clash(j, ts, d) {
      var d :| Clash(j, ts, d);
      ClashRaises(j, ts, v, d);
    }
  }

  /** When the whole path already exists, the write replaces the node at its end and nothing else. */
  lemma {:induction false} SetExisting(j: Json, ts: seq<Token>, v: Json)
    requires ts != [] && At(j, ts).Some?
    ensures Set(j, ts, v) == SetOutcome(ReplaceAt(j, ts, v), Success(At(j, ts).value))
    decreases |ts|
  {
    var t := ts[0];
    var c := Child(j, t).value;
    if |ts| == 1 {
      assert ts[1..] == [];
      if t.Index? {
        assert PadTo(j.items, t.i + 1, JNull) == j.items;
      }
    } else {
      assert ts[1..][0] == ts[1];
      assert Child(c, ts[1]).Some?;
      assert Usable(j, t, ts[1]);
      SetExisting(c, ts[1..], v);
    }
  }

  /** Writing the same value again changes nothing, and reports the value as the previous one. */
  lemma SetIdempotent(j: Json, ts: seq<Token>, v: Json)
    requires ts != [] && Set(j, ts, v).result.Success?
    ensures Set(Set(j, ts, v).tree, ts, v) == SetOutcome(Set(j, ts, v).tree, Success(v))
  {
    var tree := Set(j, ts, v).tree;
    SetThenAt(j, ts, v);
    SetExisting(tree, ts, v);
    ReplaceSame(tree, ts);
  }

  /** The root keeps its kind: an options mapping stays a mapping. */
  lemma SetKeepsRootKind(j: Json, ts: seq<Token>, v: Json)
    ensures Set(j, ts, v).tree.JObj? == j.JObj?
    ensures Set(j, ts, v).tree.JArr? == j.JArr?
  {
  }

  /** A step down leaves every child of the node other than the one on the path. */
  lemma EnsureSiblings(n: Json, t: Token, next: Token, u: Token)
    requires KindOk(n, t) && u != t && GetChild(n, u).Some?
    ensures GetChild(Ensure(n, t, next), u) == GetChild(n, u)
  {
  }

  /** A write below `n` leaves every existing child of `n` other than the one on the path. */
  lemma SetSiblings(n: Json, ts: seq<Token>, v: Json, u: Token)
    requires ts != [] && KindOk(n, ts[0]) && u != ts[0] && GetChild(n, u).Some?
    ensures GetChild(Set(n, ts, v).tree, u) == GetChild(n, u)
  {
    if |ts| > 1 {
      var cur1 := Ensure(n, ts[0], ts[1]);
      EnsureSiblings(n, ts[0], ts[1], u);
      AttachOther(cur1, ts[0], Set(Child(cur1, ts[0]).value, ts[1..], v).tree, u);
    }
  }

  /** A write through a usable child is the write below it, put back in place. */
  lemma SetThroughChild(j: Json, ts: seq<Token>, v: Json)
    requires |ts| >= 2 && KindOk(j, ts[0]) && Usable(j, ts[0], ts[1])
    ensures Set(j, ts, v) == Lift(j, [ts[0]], Set(Child(j, ts[0]).value, ts[1..], v))
  {
    var o := Set(Child(j, ts[0]).value, ts[1..], v);
    assert Ensure(j, ts[0], ts[1]) == j;
    assert Set(j, ts, v) == SetOutcome(Attach(j, ts[0], o.tree), o.result);
    assert [ts[0]][1..] == [];
    assert ReplaceAt(j, [ts[0]], o.tree) == Attach(j, ts[0], o.tree);
  }

  /** Putting back below a child, then putting the child back, is one put-back along the longer path. */
  lemma LiftThroughChild(j: Json, t: Token, p: seq<Token>, o: SetOutcome)
    requires Child(j, t).Some?
    ensures Lift(j, [t], Lift(Child(j, t).value, p, o)) == Lift(j, [t] + p, o)
  {
    var c := Child(j, t).value;
    var y := ReplaceAt(c, p, o.tree);
    assert [t][1..] == [];
    assert ReplaceAt(j, [t], y) == Attach(j, t, ReplaceAt(c, [], y));
    assert ([t] + p)[0] == t && ([t] + p)[1..] == p;
    assert ReplaceAt(j, [t] + p, o.tree) == Attach(j, t, y);
  }

  /**
   * Where the path exists down to position `e` and the node there has the
   * right kind for token `e`, nothing above it is written: the write is the
   * one below that node, put back in place.
   */
  lemma {:induction false} SetBelow(j: Json, ts: seq<Token>, v: Json, e: nat)
    requires e < |ts| && At(j, ts[..e]).Some? && KindOk(At(j, ts[..e]).value, ts[e])
    ensures Set(j, ts, v) == Lift(j, ts[..e], Set(At(j, ts[..e]).value, ts[e..], v))
    decreases e
  {
    if e == 0 {
      assert ts[..0] == [] && ts[0..] == ts;
    } else {
      var t := ts[0];
      assert ts[..e][0] == t;
      var c := Child(j, t).value;
      AtUnfold(j, ts, e);
      assert ts[1..][0] == ts[1];
      if e >= 2 {
        AtUnfold(c, ts[1..], e - 1);
        assert ts[1..][..e - 1][0] == ts[1];
      } else {
        assert ts[1..][..0] == [];
      }
      assert Usable(j, t, ts[1]);
      assert ts[1..][e - 1] == ts[e];
      SetBelow(c, ts[1..], v, e - 1);
      assert ts[1..][e - 1..] == ts[e..];
      SetThroughChild(j, ts, v);
      LiftThroughChild(j, t, ts[1..][..e - 1], Set(At(j, ts[..e]).value, ts[e..], v));
      assert [t] + ts[1..][..e - 1] == ts[..e];
    }
  }

  /** Walking past a node that exists is walking on from it. */
  lemma WalkPast(j: Json, p: seq<Token>, r: seq<Token>)
    requires At(j, p).Some?
    ensures Walk(j, p + r) == Walk(At(j, p).value, r)
  {
    AtIsWalk(j, p);
    WalkAppend(j, p, r);
  }

  /** A write below one child leaves every walk through another child as it was. */
  lemma SetSideways(n: Json, ts: seq<Token>, v: Json, q: seq<Token>)
    requires ts != [] && q != [] && KindOk(n, ts[0]) && q[0] != ts[0] && Walk(n, q).Some?
    ensures Walk(Set(n, ts, v).tree, q) == Walk(n, q)
  {
    assert GetChild(n, q[0]).Some?;
    SetSiblings(n, ts, v, q[0]);
  }

  /**
   * The frame of a write: a value the original tree holds at a path `q` that
   * leaves the written path at position `e`, below a node the write keeps,
   * is still there afterwards. (What may change: the path itself, padding
   * past the end of a list, and nodes replaced because they were missing or
   * of the wrong kind.)
   */
  lemma SetFrame(j: Json, ts: seq<Token>, v: Json, q: seq<Token>, e: nat)
    requires e < |ts| && e < |q| && q[..e] == ts[..e] && q[e] != ts[e]
    requires At(j, ts[..e]).Some? && KindOk(At(j, ts[..e]).value, ts[e])
    requires Walk(j, q).Some?
    ensures Walk(Set(j, ts, v).tree, q) == Walk(j, q)
  {
    var p := ts[..e];
    var n := At(j, p).value;
    var o := Set(n, ts[e..], v);
    SetBelow(j, ts, v, e);
    assert q == p + q[e..];
    AtReplace(j, p, o.tree);
    WalkPast(ReplaceAt(j, p, o.tree), p, q[e..]);
    WalkPast(j, p, q[e..]);
    assert q[e..][0] == q[e] && ts[e..][0] == ts[e];
    SetSideways(n, ts[e..], v, q[e..]);
  }
}
