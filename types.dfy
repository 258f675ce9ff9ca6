/** Vocabulary shared by every part of the model: colours, piece kinds,
    pieces, optional values and the 8x8 square coordinates (row 0 is the
    black back rank, row 7 the white back rank, as in the application's
    display grid). */
module Types {

  datatype Option<T> = None | Some(value: T)

  datatype Color = White | Black

  /** The enemy colour. */
  function Opponent(c: Color): (e: Color)
    ensures e != c
  {
    if c == White then Black else White
  }

  function Abs(x: int): (a: nat)
    ensures a == x || a == -x
  {
    if x < 0 then -x else x
  }

  datatype Kind = Pawn | Rook | Knight | Bishop | Queen | King

  /** A piece as the application stores it: kind, colour and whether it has
      moved (the `has_moved` flag of the `Piece` dataclass). */
  datatype Piece = Piece(kind: Kind, color: Color, hasMoved: bool)

  /** A piece as the rules library reports it: kind and colour only. */
  datatype ColoredPiece = ColoredPiece(kind: Kind, color: Color)

  /** A grid square `(row, col)`. */
  type Pos = (int, int)

  predicate OnBoard(r: int, c: int) {
    0 <= r < 8 && 0 <= c < 8
  }

  /** The 64 squares in the order of the nested loops
      `for row in range(8): for col in range(8)`. */
  function RowMajor(): (s: seq<Pos>)
    ensures |s| == 64
    ensures forall i :: 0 <= i < 64 ==> s[i] == (i / 8, i % 8)
  {
    seq(64, i => (i / 8, i % 8))
  }

  /** A scan that has passed all 64 squares has seen the whole order. */
  lemma {:induction false} RowMajorWhole()
    ensures RowMajor()[..64] == RowMajor()
  {
    var s := RowMajor();
    assert s[..|s|] == s;
  }

  lemma {:induction false} RowMajorIndex(r: int, c: int)
    requires OnBoard(r, c)
    ensures 8 * r + c < 64 && RowMajor()[8 * r + c] == (r, c)
  {
  }

  /** A row-major scan keeps exactly the on-board squares passing the test. */
  lemma {:induction false} RowMajorMembers(p: Pos -> bool, q: Pos)
    ensures q in Filter(RowMajor(), p) <==> OnBoard(q.0, q.1) && p(q)
  {
    FilterMembers(RowMajor(), p, q);
    if OnBoard(q.0, q.1) && p(q) {
      RowMajorIndex(q.0, q.1);
    }
  }

  /** Concatenation regroups freely. */
  lemma {:induction false} AppendThree<T>(a: seq<T>, b: seq<T>, c: seq<T>)
    ensures a + b + c == a + (b + c)
  {
  }

  lemma {:induction false} AppendFour<T>(a: seq<T>, b: seq<T>, c: seq<T>, d: seq<T>)
    ensures a + b + c + d == a + (b + c + d)
  {
  }

  /** Applying a step that can fail to every element in turn: the list of
      results, or `None` once one step fails. */
  function MapAll<A, B>(xs: seq<A>, f: A -> Option<B>): Option<seq<B>> {
    if xs == [] then Some([])
    else
      var front := MapAll(xs[..|xs| - 1], f);
      var last := f(xs[|xs| - 1]);
      if front.None? || last.None? then None else Some(front.value + [last.value])
  }

  /** `MapAll` succeeds, with one result per element, exactly when every
      step succeeds. */
  lemma {:induction false} MapAllSpec<A, B>(xs: seq<A>, f: A -> Option<B>)
    ensures MapAll(xs, f).Some? ==>
      |MapAll(xs, f).value| == |xs| && forall i :: 0 <= i < |xs| ==> f(xs[i]) == Some(MapAll(xs, f).value[i])
    ensures MapAll(xs, f).None? ==> exists i :: 0 <= i < |xs| && f(xs[i]).None?
  {
    if xs != [] {
      var pre := xs[..|xs| - 1];
      MapAllSpec(pre, f);
      var front := MapAll(pre, f);
      if front.None? {
        var i :| 0 <= i < |pre| && f(pre[i]).None?;
        assert pre[i] == xs[i];
      } else if f(xs[|xs| - 1]).Some? {
        var r := front.value + [f(xs[|xs| - 1]).value];
        forall i | 0 <= i < |xs|
          ensures f(xs[i]) == Some(r[i])
        {
          if i < |pre| {
            assert pre[i] == xs[i];
          }
        }
      }
    }
  }

  /** The elements of `xs` that satisfy `p`, in order: what a loop that
      appends every qualifying element to a list produces. */
  function Filter<T>(xs: seq<T>, p: T -> bool): (r: seq<T>)
    ensures |r| <= |xs|
  {
    if xs == [] then [] else (if p(xs[0]) then [xs[0]] else []) + Filter(xs[1..], p)
  }

  /** What the filter keeps: the elements of `xs` that satisfy `p`. */
  lemma {:induction false} FilterMembers<T>(xs: seq<T>, p: T -> bool, x: T)
    ensures x in Filter(xs, p) <==> x in xs && p(x)
  {
    if xs != [] {
      FilterMembers(xs[1..], p, x);
      assert xs == [xs[0]] + xs[1..];
    }
  }

  lemma {:induction false} FilterAppend<T>(xs: seq<T>, ys: seq<T>, p: T -> bool)
    ensures Filter(xs + ys, p) == Filter(xs, p) + Filter(ys, p)
  {
    if xs == [] {
      assert xs + ys == ys;
    } else {
      var head := if p(xs[0]) then [xs[0]] else [];
      assert (xs + ys)[0] == xs[0];
      assert (xs + ys)[1..] == xs[1..] + ys;
      FilterAppend(xs[1..], ys, p);
      calc {
        Filter(xs + ys, p);
        head + Filter(xs[1..] + ys, p);
        head + (Filter(xs[1..], p) + Filter(ys, p));
        (head + Filter(xs[1..], p)) + Filter(ys, p);
      }
    }
  }

  /** Filtering one more element onto the end of the scanned prefix. */
  lemma {:induction false} FilterSnoc<T>(xs: seq<T>, x: T, p: T -> bool)
    ensures Filter(xs + [x], p) == Filter(xs, p) + (if p(x) then [x] else [])
  {
    FilterAppend(xs, [x], p);
  }

  lemma {:induction false} FilterNone<T>(xs: seq<T>, p: T -> bool)
    requires forall i :: 0 <= i < |xs| ==> !p(xs[i])
    ensures Filter(xs, p) == []
  {
    if xs != [] {
      FilterNone(xs[1..], p);
    }
  }

  lemma {:induction false} FilterAll<T>(xs: seq<T>, p: T -> bool)
    requires forall i :: 0 <= i < |xs| ==> p(xs[i])
    ensures Filter(xs, p) == xs
  {
    if xs != [] {
      FilterAll(xs[1..], p);
    }
  }

  /** A test that only passes where another passes keeps no more elements. */
  lemma {:induction false} FilterWeaker<T>(xs: seq<T>, q: T -> bool, p: T -> bool)
    requires forall x :: q(x) ==> p(x)
    ensures |Filter(xs, q)| <= |Filter(xs, p)|
  {
    if xs != [] {
      FilterWeaker(xs[1..], q, p);
    }
  }

  /** The number of elements of `xs` that satisfy `p`: what a counting loop
      produces. */
  function Count<T>(xs: seq<T>, p: T -> bool): nat
  {
    |Filter(xs, p)|
  }
}
