/**
 * The list-shaping steps shared by the listing tools: keep the entries that
 * pass a test (LINQ Where), keep the entries that contain a filter ignoring
 * case, and cut a list down to a display cap while counting what was left out
 * (LINQ Take plus the "... and K more" note).
 */
module Listing {
  import opened Base
  import opened Text
  import opened Args

  /** Where(p): the entries satisfying p, in their original order. */
  function Filter<T(!new)>(xs: seq<T>, p: T -> bool): (r: seq<T>)
    ensures |r| <= |xs|
    ensures forall i :: 0 <= i < |r| ==> p(r[i])
    ensures forall x :: x in r <==> x in xs && p(x)
  {
    if xs == [] then []
    else (if p(xs[0]) then [xs[0]] else []) + Filter(xs[1..], p)
  }

  /** Filtering a concatenation filters each part and keeps them in order. */
  lemma {:induction false} FilterAppend<T(!new)>(a: seq<T>, b: seq<T>, p: T -> bool)
    ensures Filter(a + b, p) == Filter(a, p) + Filter(b, p)
  {
    if a == [] {
      assert a + b == b;
    } else {
      assert (a + b)[0] == a[0];
      assert (a + b)[1..] == a[1..] + b;
      FilterAppend(a[1..], b, p);
    }
  }

  /** An entry that passes the test survives, so only a list with no passing entry filters to nothing. */
  lemma FilterEmptyIff<T(!new)>(xs: seq<T>, p: T -> bool)
    ensures Filter(xs, p) == [] <==> forall i :: 0 <= i < |xs| ==> !p(xs[i])
  {
    if Filter(xs, p) != [] {
      var x := Filter(xs, p)[0];
      assert x in xs;
    }
  }

  /** A list whose entries all pass the test is left as it is. */
  lemma {:induction false} FilterKeepsAll<T(!new)>(xs: seq<T>, p: T -> bool)
    requires forall i :: 0 <= i < |xs| ==> p(xs[i])
    ensures Filter(xs, p) == xs
  {
    if xs != [] {
      FilterKeepsAll(xs[1..], p);
    }
  }

  /** Where(line => line.Contains(f, OrdinalIgnoreCase)). */
  function KeepContaining(xs: seq<string>, f: string): (r: seq<string>)
    ensures |r| <= |xs|
    ensures forall x :: x in r <==> x in xs && ContainsIgnoreCase(x, f)
    ensures r == [] <==> forall i :: 0 <= i < |xs| ==> !ContainsIgnoreCase(xs[i], f)
  {
    FilterEmptyIff(xs, (x: string) => ContainsIgnoreCase(x, f));
    Filter(xs, (x: string) => ContainsIgnoreCase(x, f))
  }

  /** Keeping by a filter distributes over concatenation, so the kept entries keep their order. */
  lemma KeepContainingAppend(a: seq<string>, b: seq<string>, f: string)
    ensures KeepContaining(a + b, f) == KeepContaining(a, f) + KeepContaining(b, f)
  {
    FilterAppend(a, b, (x: string) => ContainsIgnoreCase(x, f));
  }

  /** An entry is kept alone exactly when it contains the filter. */
  lemma KeepContainingSingle(x: string, f: string)
    ensures KeepContaining([x], f) == if ContainsIgnoreCase(x, f) then [x] else []
  {
    assert [x][1..] == [];
  }

  /** The empty filter keeps every entry (every string contains the empty string). */
  lemma KeepContainingEmptyFilter(xs: seq<string>)
    ensures KeepContaining(xs, "") == xs
  {
    forall i | 0 <= i < |xs| ensures ContainsIgnoreCase(xs[i], "") {
      assert StartsWith(Lower(xs[i]), Lower(""));
    }
    FilterKeepsAll(xs, (x: string) => ContainsIgnoreCase(x, ""));
  }

  /**
   * The entries a listing tool shows for an optional filter: all of them when
   * the filter is null or empty, else those containing it ignoring case.
   */
  function Matching(xs: seq<string>, filter: Option<string>): (r: seq<string>)
    ensures filter == None || filter.value == "" ==> r == xs
    ensures !IsNullOrEmpty(filter) ==> r == KeepContaining(xs, filter.value)
    ensures forall x :: x in r <==> x in xs && (filter == None || ContainsIgnoreCase(x, filter.value))
    ensures |r| <= |xs|
  {
    if filter == None || filter.value == "" then xs
    else KeepContaining(xs, filter.value)
  }

  /** Matching distributes over concatenation: the entries shown keep their original order. */
  lemma MatchingAppend(a: seq<string>, b: seq<string>, filter: Option<string>)
    ensures Matching(a + b, filter) == Matching(a, filter) + Matching(b, filter)
  {
    if !IsNullOrEmpty(filter) {
      KeepContainingAppend(a, b, filter.value);
    }
  }

  /** A single entry is shown exactly when there is no filter or the entry contains it. */
  lemma MatchingSingle(x: string, filter: Option<string>)
    ensures Matching([x], filter) == if IsNullOrEmpty(filter) || ContainsIgnoreCase(x, filter.value) then [x] else []
  {
    if !IsNullOrEmpty(filter) {
      KeepContainingSingle(x, filter.value);
    }
  }

  /** The " (filtered by 'F')" part of a listing header, present exactly when a non-empty filter was given. */
  function FilterNote(filter: Option<string>): (t: string)
    ensures t == "" <==> IsNullOrEmpty(filter)
    ensures !IsNullOrEmpty(filter) ==> Contains(t, filter.value)
  {
    if IsNullOrEmpty(filter) then ""
    else
      ContainsPiece(" (filtered by '", filter.value, "')");
      " (filtered by '" + filter.value + "')"
  }

  /** One screenful of a list: how many there are, the first ones shown, and how many are not shown. */
  datatype Page<T> = Page(total: nat, shown: seq<T>, remaining: nat)

  /** Take(cap), with the counts the listing text reports. */
  function Paginate<T>(xs: seq<T>, cap: nat): (pg: Page<T>)
    ensures pg.total == |xs|
    ensures |pg.shown| == Min(cap, |xs|)
    ensures pg.shown == xs[..|pg.shown|]
    ensures pg.total == |pg.shown| + pg.remaining
    ensures pg.remaining > 0 <==> |xs| > cap
    ensures |xs| > cap ==> pg.remaining == |xs| - cap
  {
    var n := Min(cap, |xs|);
    Page(|xs|, xs[..n], |xs| - n)
  }

  /**
   * Select((x, index) => $"{index + 1}. ..."): each entry described on a line
   * of its own, numbered from 1.
   */
  function Numbered<T>(xs: seq<T>, describe: T -> string): (lines: seq<string>)
    ensures |lines| == |xs|
    ensures forall i :: 0 <= i < |xs| ==> lines[i] == NatToString(i + 1) + ". " + describe(xs[i])
  {
    seq(|xs|, i requires 0 <= i < |xs| => NatToString(i + 1) + ". " + describe(xs[i]))
  }

  /**
   * A numbered listing joined with newlines reads back, line by line, as one
   * line per entry in order, as long as no description spans several lines.
   */
  lemma NumberedReadsBack<T>(xs: seq<T>, describe: T -> string)
    requires xs != []
    requires forall i :: 0 <= i < |xs| ==> '\n' !in describe(xs[i])
    ensures var lines := Split(Join(Numbered(xs, describe), "\n"), '\n');
      |lines| == |xs|
      && forall i :: 0 <= i < |xs| ==> StartsWith(lines[i], NatToString(i + 1) + ". ")
                                       && lines[i] == NatToString(i + 1) + ". " + describe(xs[i])
  {
    var lines := Numbered(xs, describe);
    forall i | 0 <= i < |lines| ensures '\n' !in lines[i] {
      NoNewlineInDigits(i + 1);
    }
    SplitJoin(lines, '\n');
  }
}
