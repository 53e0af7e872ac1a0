/**
 * The shapes shared by the services' appending loops. `Collect` is a loop
 * that walks a decoded list, lets each element contribute at most one
 * value, and stops at the first element that raises; it is defined from the
 * last element so that a loop over a prefix extends it one step at a time.
 * `Lines` and `Blocks` are loops that append lines of text.
 */
module Loops {
  import opened Wrappers
  import opened Json

  function Collect<T>(xs: seq<Json>, step: Json -> Result<Option<T>, string>): (r: Result<seq<T>, string>)
  {
    if xs == [] then Success([])
    else
      match Collect(xs[..|xs| - 1], step)
      case Failure(e) => Failure(e)
      case Success(acc) =>
        match step(xs[|xs| - 1])
        case Failure(e) => Failure(e)
        case Success(None) => Success(acc)
        case Success(Some(v)) => Success(acc + [v])
  }

  /** One more element: what the loop body does with `xs[i]`. */
  lemma CollectStep<T>(xs: seq<Json>, i: nat, step: Json -> Result<Option<T>, string>)
    requires i < |xs|
    ensures Collect(xs[..i + 1], step) ==
              match Collect(xs[..i], step)
              case Failure(e) => Failure(e)
              case Success(acc) =>
                match step(xs[i])
                case Failure(e) => Failure(e)
                case Success(None) => Success(acc)
                case Success(Some(v)) => Success(acc + [v])
  {
    assert xs[..i + 1][..i] == xs[..i];
  }

  /** Once an element raises, every longer prefix raises the same way. */
  lemma {:induction false} CollectFailsFrom<T>(xs: seq<Json>, i: nat, n: nat, step: Json -> Result<Option<T>, string>)
    requires i < n <= |xs|
    requires Collect(xs[..i], step).Success? && step(xs[i]).Failure?
    ensures Collect(xs[..n], step) == Failure(step(xs[i]).error)
    decreases n
  {
    if n == i + 1 {
      CollectStep(xs, i, step);
    } else {
      CollectFailsFrom(xs, i, n - 1, step);
      CollectStep(xs, n - 1, step);
    }
  }

  /** The loop finishes exactly when no element raises. */
  lemma {:induction false} CollectSucceeds<T>(xs: seq<Json>, step: Json -> Result<Option<T>, string>)
    ensures Collect(xs, step).Success? <==> forall k :: 0 <= k < |xs| ==> step(xs[k]).Success?
  {
    if xs != [] {
      var init := xs[..|xs| - 1];
      CollectSucceeds(init, step);
      assert forall k :: 0 <= k < |init| ==> init[k] == xs[k];
    }
  }

  /** Every collected value is the contribution of some element. */
  lemma {:induction false} CollectedFrom<T>(xs: seq<Json>, step: Json -> Result<Option<T>, string>, v: T)
    requires Collect(xs, step).Success? && v in Collect(xs, step).value
    ensures exists k :: 0 <= k < |xs| && step(xs[k]) == Success(Some(v))
  {
    var init := xs[..|xs| - 1];
    if Collect(init, step).Success? && v in Collect(init, step).value {
      CollectedFrom(init, step, v);
      var k :| 0 <= k < |init| && step(init[k]) == Success(Some(v));
      assert xs[k] == init[k];
    } else {
      assert step(xs[|xs| - 1]) == Success(Some(v));
    }
  }

  /** Every contribution of an element is collected. */
  lemma {:induction false} CollectedAll<T>(xs: seq<Json>, step: Json -> Result<Option<T>, string>, k: nat, v: T)
    requires Collect(xs, step).Success? && k < |xs| && step(xs[k]) == Success(Some(v))
    ensures v in Collect(xs, step).value
  {
    var init := xs[..|xs| - 1];
    if k < |xs| - 1 {
      assert init[k] == xs[k];
      CollectedAll(init, step, k, v);
    }
  }

  /** Collecting over a concatenation collects each part in turn: the loop keeps list order. */
  lemma {:induction false} CollectAppend<T>(xs: seq<Json>, ys: seq<Json>, step: Json -> Result<Option<T>, string>)
    requires Collect(xs, step).Success? && Collect(ys, step).Success?
    ensures Collect(xs + ys, step) == Success(Collect(xs, step).value + Collect(ys, step).value)
    decreases |ys|
  {
    if ys == [] {
      assert xs + ys == xs;
      assert Collect(xs, step).value + [] == Collect(xs, step).value;
    } else {
      var yinit := ys[..|ys| - 1];
      var zs := xs + ys;
      assert zs[..|zs| - 1] == xs + yinit;
      assert zs[|zs| - 1] == ys[|ys| - 1];
      assert Collect(yinit, step).Success?;
      CollectAppend(xs, yinit, step);
      var a := Collect(xs, step).value;
      var b := Collect(yinit, step).value;
      assert Collect(zs[..|zs| - 1], step) == Success(a + b);
      var last := step(ys[|ys| - 1]);
      assert last.Success?;
      if last.value.Some? {
        assert (a + b) + [last.value.value] == a + (b + [last.value.value]);
      }
    }
  }

  /** Each element contributes at most one value. */
  lemma {:induction false} CollectLength<T>(xs: seq<Json>, step: Json -> Result<Option<T>, string>)
    requires Collect(xs, step).Success?
    ensures |Collect(xs, step).value| <= |xs|
  {
    if xs != [] {
      CollectLength(xs[..|xs| - 1], step);
    }
  }

  /**
   * When every element that does not raise contributes a value, the loop
   * yields one value per element, in order.
   */
  lemma {:induction false} CollectEvery<T>(xs: seq<Json>, step: Json -> Result<Option<T>, string>)
    requires Collect(xs, step).Success?
    requires forall x :: step(x).Success? ==> step(x).value.Some?
    ensures |Collect(xs, step).value| == |xs|
    ensures forall k :: 0 <= k < |xs| ==> step(xs[k]) == Success(Some(Collect(xs, step).value[k]))
  {
    if xs != [] {
      var init := xs[..|xs| - 1];
      CollectEvery(init, step);
      assert forall k :: 0 <= k < |init| ==> init[k] == xs[k];
    }
  }

  /**
   * The loop itself: walk `xs` in order, append what each element
   * contributes, and return the first error an element raises.
   */
  method CollectLoop<T>(xs: seq<Json>, step: Json -> Result<Option<T>, string>) returns (r: Result<seq<T>, string>)
    ensures r == Collect(xs, step)
  {
    var acc: seq<T> := [];
    var i := 0;
    while i < |xs|
      invariant 0 <= i <= |xs|
      invariant Collect(xs[..i], step) == Success(acc)
    {
      CollectStep(xs, i, step);
      var contribution := step(xs[i]);
      if contribution.Failure? {
        CollectFailsFrom(xs, i, |xs|, step);
        assert xs[..|xs|] == xs;
        return Failure(contribution.error);
      }
      if contribution.value.Some? {
        acc := acc + [contribution.value.value];
      }
      i := i + 1;
    }
    assert xs[..i] == xs;
    return Success(acc);
  }

  // ----- loops that build a list of text lines -----

  /** One line per element, in order. */
  function Lines<T>(xs: seq<T>, line: T -> string): seq<string> {
    if xs == [] then [] else Lines(xs[..|xs| - 1], line) + [line(xs[|xs| - 1])]
  }

  lemma {:induction false} LinesList<T>(xs: seq<T>, line: T -> string)
    ensures |Lines(xs, line)| == |xs|
    ensures forall k :: 0 <= k < |xs| ==> Lines(xs, line)[k] == line(xs[k])
  {
    if xs != [] {
      LinesList(xs[..|xs| - 1], line);
    }
  }

  /** For each element, its own line followed by one line per child, in order. */
  function Blocks<T, U>(xs: seq<T>, line: T -> string, children: T -> seq<U>, childLine: U -> string): seq<string> {
    if xs == [] then []
    else
      var x := xs[|xs| - 1];
      Blocks(xs[..|xs| - 1], line, children, childLine) + [line(x)] + Lines(children(x), childLine)
  }

  /** Every element's line, and every line of its children, is among the lines. */
  lemma {:induction false} BlocksList<T, U>(xs: seq<T>, line: T -> string, children: T -> seq<U>, childLine: U -> string, i: nat)
    requires i < |xs|
    ensures line(xs[i]) in Blocks(xs, line, children, childLine)
    ensures forall c :: c in children(xs[i]) ==> childLine(c) in Blocks(xs, line, children, childLine)
  {
    var init := xs[..|xs| - 1];
    if i < |xs| - 1 {
      assert init[i] == xs[i];
      BlocksList(init, line, children, childLine, i);
    } else {
      LinesList(children(xs[i]), childLine);
      forall c | c in children(xs[i]) ensures childLine(c) in Blocks(xs, line, children, childLine) {
        var k :| 0 <= k < |children(xs[i])| && children(xs[i])[k] == c;
        assert Lines(children(xs[i]), childLine)[k] == childLine(c);
      }
    }
  }

  /** One line per element plus one per child. */
  lemma {:induction false} BlocksCount<T, U>(xs: seq<T>, line: T -> string, children: T -> seq<U>, childLine: U -> string)
    ensures |Blocks(xs, line, children, childLine)| == |xs| + ChildCount(xs, children)
  {
    if xs != [] {
      BlocksCount(xs[..|xs| - 1], line, children, childLine);
      LinesList(children(xs[|xs| - 1]), childLine);
    }
  }

  /** The number of children of all elements. */
  function ChildCount<T, U>(xs: seq<T>, children: T -> seq<U>): nat {
    if xs == [] then 0 else ChildCount(xs[..|xs| - 1], children) + |children(xs[|xs| - 1])|
  }

  /** A loop appending one line per element. */
  method AppendLines<T>(lines: seq<string>, xs: seq<T>, line: T -> string) returns (out: seq<string>)
    ensures out == lines + Lines(xs, line)
  {
    out := lines;
    var j := 0;
    while j < |xs|
      invariant 0 <= j <= |xs|
      invariant out == lines + Lines(xs[..j], line)
    {
      assert xs[..j + 1][..j] == xs[..j];
      out := out + [line(xs[j])];
      j := j + 1;
    }
    assert xs[..j] == xs;
  }

  /** The loop over the elements: each one's line, then an inner loop over its children. */
  method AppendBlocks<T, U>(lines: seq<string>, xs: seq<T>, line: T -> string, children: T -> seq<U>, childLine: U -> string)
    returns (out: seq<string>)
    ensures out == lines + Blocks(xs, line, children, childLine)
  {
    out := lines;
    var i := 0;
    while i < |xs|
      invariant 0 <= i <= |xs|
      invariant out == lines + Blocks(xs[..i], line, children, childLine)
    {
      assert xs[..i + 1][..i] == xs[..i];
      out := out + [line(xs[i])];
      out := AppendLines(out, children(xs[i]), childLine);
      i := i + 1;
    }
    assert xs[..i] == xs;
  }
}
