/** A lazily built ActiveRecord relation, seen as the sequence of query fragments that
    `where`, `order`, `joins`, `offset` and `limit` have appended to it, in call order. */
module Query {
  import opened Results

  /** A named placeholder binding (`:filter`, `:search`); the value is nil when the
      request parameter was missing. */
  datatype Bind = Bind(name: string, value: Option<string>)

  datatype Fragment =
    | Where(text: string, binds: seq<Bind>)
    | Order(text: string)
    | Join(association: string)
    | Offset(rows: int)
    | Limit(rows: int)

  type Relation = seq<Fragment>

  /** The ORDER BY terms of a fragment sequence, in order. */
  function OrderTexts(fs: seq<Fragment>): seq<string> {
    if fs == [] then []
    else (if fs[0].Order? then [fs[0].text] else []) + OrderTexts(fs[1..])
  }

  /** The WHERE fragments of a fragment sequence, in order. */
  function Wheres(fs: seq<Fragment>): seq<Fragment> {
    if fs == [] then []
    else (if fs[0].Where? then [fs[0]] else []) + Wheres(fs[1..])
  }

  /** The associations a fragment sequence joins, in order. */
  function Joins(fs: seq<Fragment>): seq<string> {
    if fs == [] then []
    else (if fs[0].Join? then [fs[0].association] else []) + Joins(fs[1..])
  }

  lemma {:induction false} OrderTextsConcat(a: seq<Fragment>, b: seq<Fragment>)
    ensures OrderTexts(a + b) == OrderTexts(a) + OrderTexts(b)
  {
    if a != [] {
      assert (a + b)[0] == a[0];
      assert (a + b)[1..] == a[1..] + b;
      OrderTextsConcat(a[1..], b);
    } else {
      assert a + b == b;
    }
  }

  lemma {:induction false} WheresConcat(a: seq<Fragment>, b: seq<Fragment>)
    ensures Wheres(a + b) == Wheres(a) + Wheres(b)
  {
    if a != [] {
      assert (a + b)[0] == a[0];
      assert (a + b)[1..] == a[1..] + b;
      WheresConcat(a[1..], b);
    } else {
      assert a + b == b;
    }
  }

  lemma {:induction false} JoinsConcat(a: seq<Fragment>, b: seq<Fragment>)
    ensures Joins(a + b) == Joins(a) + Joins(b)
  {
    if a != [] {
      assert (a + b)[0] == a[0];
      assert (a + b)[1..] == a[1..] + b;
      JoinsConcat(a[1..], b);
    } else {
      assert a + b == b;
    }
  }

  /** The fragments of several steps, in step order, or the first step's failure. */
  function Collect<E>(parts: seq<Result<seq<Fragment>, E>>): Result<seq<Fragment>, E> {
    if parts == [] then Ok([])
    else
      var init := Collect(parts[..|parts| - 1]);
      var last := parts[|parts| - 1];
      if init.Err? then init
      else if last.Err? then Err(last.error)
      else Ok(init.value + last.value)
  }

  /** The steps succeed together exactly when every step succeeds. */
  lemma {:induction false} CollectOkIff<E>(parts: seq<Result<seq<Fragment>, E>>)
    ensures Collect(parts).Ok? <==> forall i :: 0 <= i < |parts| ==> parts[i].Ok?
  {
    if parts != [] {
      var init := parts[..|parts| - 1];
      CollectOkIff(init);
      assert forall i :: 0 <= i < |init| ==> init[i] == parts[i];
    }
  }

  /** `records` with the fragments of `f` appended, or the failure of `f`. */
  function Appended<E>(records: Relation, f: Result<seq<Fragment>, E>): (r: Result<Relation, E>)
    ensures r.Ok? <==> f.Ok?
    ensures r.Ok? ==> r.value == records + f.value
    ensures r.Err? ==> r.error == f.error
  {
    match f
    case Ok(x) => Ok(records + x)
    case Err(e) => Err(e)
  }

  /** A single step's fragments are all that the steps append. */
  lemma CollectSingle<E>(x: Result<seq<Fragment>, E>)
    ensures Collect([x]) == Appended([], x)
  {
    assert [x][..0] == [];
  }

  /** Appending one more step's fragments to the relation built so far. */
  lemma AppendedStep<E>(records: Relation, parts: seq<Result<seq<Fragment>, E>>, last: Result<seq<Fragment>, E>)
    requires Collect(parts).Ok?
    ensures (parts + [last])[..|parts|] == parts
    ensures Appended(records, Collect(parts + [last])) == Appended(records + Collect(parts).value, last)
  {
    var all := parts + [last];
    assert all[..|all| - 1] == parts;
    assert all[|all| - 1] == last;
    var init := Collect(parts).value;
    match last
    case Err(e) =>
      assert Collect(all) == Err(e);
    case Ok(x) =>
      assert Collect(all) == Ok(init + x);
      assert records + (init + x) == (records + init) + x;
  }

  /** Step `i` of a run whose first `i` steps built `current`: its fragments extend
      `current`, or its failure is the failure of the first `i + 1` steps. */
  lemma CollectStep<E>(records: Relation, parts: seq<Result<seq<Fragment>, E>>, i: nat, current: Relation)
    requires i < |parts| && Appended(records, Collect(parts[..i])) == Ok(current)
    ensures Appended(records, Collect(parts[..i + 1])) == Appended(current, parts[i])
  {
    AppendedStep(records, parts[..i], parts[i]);
    assert parts[..i] + [parts[i]] == parts[..i + 1];
  }

  lemma {:induction false} CollectConcat<E>(a: seq<Result<seq<Fragment>, E>>, b: seq<Result<seq<Fragment>, E>>)
    ensures Collect(a + b) ==
      match Collect(a)
      case Err(e) => Err(e)
      case Ok(x) => Appended(x, Collect(b))
    decreases |b|
  {
    if b == [] {
      assert a + b == a;
      if Collect(a).Ok? {
        assert Collect(a).value + [] == Collect(a).value;
      }
    } else {
      var b' := b[..|b| - 1];
      assert (a + b)[..|a + b| - 1] == a + b';
      assert (a + b)[|a + b| - 1] == b[|b| - 1];
      CollectConcat(a, b');
      assert b[..|b| - 1] == b';
      var last := b[|b| - 1];
      if Collect(a).Ok? && Collect(b').Ok? && last.Ok? {
        assert Collect(a).value + (Collect(b').value + last.value)
            == (Collect(a).value + Collect(b').value) + last.value;
      }
    }
  }

  /** Appending the steps of `a + b` is appending those of `a`, then those of `b`. */
  lemma AppendedConcat<E>(records: Relation, a: seq<Result<seq<Fragment>, E>>, b: seq<Result<seq<Fragment>, E>>)
    ensures Appended(records, Collect(a + b)) ==
      match Appended(records, Collect(a))
      case Err(e) => Err(e)
      case Ok(r) => Appended(r, Collect(b))
  {
    CollectConcat(a, b);
    if Collect(a).Ok? && Collect(b).Ok? {
      var x, y := Collect(a).value, Collect(b).value;
      assert records + (x + y) == (records + x) + y;
    }
  }
}
