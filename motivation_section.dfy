/**
 * The motivation page, src/components/motivation/MotivationSection.tsx: the
 * quote list, the category buttons built from it, the random quote and the
 * achievement bars.
 */
module MotivationSection {
  import opened Wrappers

  /** A quote; its text and author are display text, not modelled. */
  datatype Quote = Quote(id: string, category: string)

  /** `motivationalQuotes`: ids "1" to "15", one category each. */
  const MotivationalQuotes := [
    Quote("1", "AI & Future"), Quote("2", "Career Growth"), Quote("3", "Consistency"),
    Quote("4", "Building"), Quote("5", "Opportunities"), Quote("6", "Improvement"),
    Quote("7", "Income Goals"), Quote("8", "Learning"), Quote("9", "Quality"),
    Quote("10", "Shipping"), Quote("11", "Contribution"), Quote("12", "Mastery"),
    Quote("13", "Branding"), Quote("14", "UX/UI"), Quote("15", "Integration")]

  /** `quotes.map(q => q.category)`. */
  function Categories(quotes: seq<Quote>): (cs: seq<string>)
    ensures |cs| == |quotes|
    ensures forall i :: 0 <= i < |quotes| ==> cs[i] == quotes[i].category
  {
    seq(|quotes|, i requires 0 <= i < |quotes| => quotes[i].category)
  }

  /** No value occurs twice. */
  predicate NoDuplicates(xs: seq<string>) {
    forall i, j :: 0 <= i < j < |xs| ==> xs[i] != xs[j]
  }

  /** The index of the first occurrence of `x` in `xs`. */
  function FirstIndex(xs: seq<string>, x: string): (k: nat)
    requires x in xs
    ensures k < |xs| && xs[k] == x && x !in xs[..k]
  {
    if xs[0] == x then 0 else 1 + FirstIndex(xs[1..], x)
  }

  /**
   * `Array.from(new Set(xs))`: the values inserted one after another into a
   * set, which iterates in insertion order and ignores a value already present.
   */
  function Dedup(xs: seq<string>): (r: seq<string>)
    ensures NoDuplicates(r)
    ensures forall x :: x in r <==> x in xs
    ensures |r| <= |xs|
  {
    if xs == [] then []
    else
      var d := Dedup(xs[..|xs| - 1]);
      assert forall x :: x in xs <==> x in xs[..|xs| - 1] || x == xs[|xs| - 1];
      if xs[|xs| - 1] in d then d else d + [xs[|xs| - 1]]
  }

  /** A first occurrence in a prefix is a first occurrence in the whole sequence. */
  lemma {:induction false} FirstIndexOfPrefix(xs: seq<string>, n: nat, x: string)
    requires n <= |xs| && x in xs[..n]
    ensures FirstIndex(xs, x) == FirstIndex(xs[..n], x)
  {
    if xs[0] != x {
      assert xs[1..][..n - 1] == xs[..n][1..];
      FirstIndexOfPrefix(xs[1..], n - 1, x);
    }
  }

  /** The categories come out in the order of their first occurrence in the input. */
  lemma {:induction false} DedupFirstOccurrenceOrder(xs: seq<string>)
    ensures forall i, j :: 0 <= i < j < |Dedup(xs)| ==>
      FirstIndex(xs, Dedup(xs)[i]) < FirstIndex(xs, Dedup(xs)[j])
  {
    if xs != [] {
      var n := |xs| - 1;
      var init := xs[..n];
      var d := Dedup(init);
      DedupFirstOccurrenceOrder(init);
      forall x | x in d ensures FirstIndex(xs, x) == FirstIndex(init, x) && FirstIndex(xs, x) < n {
        assert xs[..n] == init;
        FirstIndexOfPrefix(xs, n, x);
      }
      if xs[n] !in d {
        assert xs[n] !in init;
        assert FirstIndex(xs, xs[n]) == n;
      }
    }
  }

  /** Input without duplicates passes through unchanged. */
  lemma {:induction false} DedupOfDistinct(xs: seq<string>)
    requires NoDuplicates(xs)
    ensures Dedup(xs) == xs
  {
    if xs != [] {
      var n := |xs| - 1;
      DedupOfDistinct(xs[..n]);
      assert xs[n] !in xs[..n];
      assert xs[..n] + [xs[n]] == xs;
    }
  }

  /** Deduplicating twice is deduplicating once. */
  lemma DedupIdempotent(xs: seq<string>)
    ensures Dedup(Dedup(xs)) == Dedup(xs)
  {
    DedupOfDistinct(Dedup(xs));
  }

  /** The category buttons of the page. */
  function CategoryButtons(): (cs: seq<string>)
    ensures NoDuplicates(cs)
    ensures forall q :: q in MotivationalQuotes ==> q.category in cs
  {
    Dedup(Categories(MotivationalQuotes))
  }

  /** With the shipped quotes all fifteen categories differ, so fifteen buttons appear. */
  lemma FifteenCategoryButtons()
    ensures CategoryButtons() == Categories(MotivationalQuotes)
    ensures |CategoryButtons()| == 15
  {
    var all := Categories(MotivationalQuotes);
    assert NoDuplicates(all);
    DedupOfDistinct(all);
  }

  /** `Math.floor(r * length)` for a draw `r` of `Math.random()`. */
  function RandomIndex(r: real, length: nat): (k: int)
    requires 0.0 <= r < 1.0
    ensures length > 0 ==> 0 <= k < length
    ensures length == 0 ==> k == 0
  {
    var x := r * length as real;
    assert length > 0 ==> x < length as real by {
      if length > 0 {
        assert (1.0 - r) * length as real > 0.0;
      }
    }
    x.Floor
  }

  /** `getRandomQuote()`: the quote at the drawn index; `undefined` for an empty list. */
  function RandomQuote(quotes: seq<Quote>, r: real): (q: Option<Quote>)
    requires 0.0 <= r < 1.0
    ensures q.Some? <==> quotes != []
    ensures q.Some? ==> q.value in quotes
  {
    var k := RandomIndex(r, |quotes|);
    if 0 <= k < |quotes| then Some(quotes[k]) else None
  }

  /** The shipped list always yields a quote, and a draw of 0 yields the first. */
  lemma RandomQuoteOfShippedList(r: real)
    requires 0.0 <= r < 1.0
    ensures RandomQuote(MotivationalQuotes, r).Some?
    ensures RandomQuote(MotivationalQuotes, 0.0) == Some(MotivationalQuotes[0])
  {
  }

  /** An achievement; its title, description and icon are display text, not modelled. */
  datatype Achievement = Achievement(id: string, progress: int, total: int)

  /** `achievements`. */
  const Achievements := [Achievement("streak-7", 5, 7), Achievement("projects-3", 0, 3),
    Achievement("hours-50", 8, 50)]

  /** A bar whose width is a share: a positive total and progress within it. */
  predicate WellFormed(a: Achievement) {
    a.total > 0 && 0 <= a.progress <= a.total
  }

  /** The width of the bar, `(progress / total) * 100`; a zero total has no number to show. */
  function BarWidth(a: Achievement): (w: Option<real>)
    ensures w.Some? <==> a.total != 0
    ensures WellFormed(a) ==> w.Some? && 0.0 <= w.value <= 100.0
    ensures WellFormed(a) ==> (w.value == 100.0 <==> a.progress == a.total)
  {
    if a.total == 0 then None else Some(a.progress as real / a.total as real * 100.0)
  }

  /** Every shipped achievement draws a bar between 0 and 100 per cent wide, none of them full. */
  lemma AchievementBars()
    ensures forall a :: a in Achievements ==> WellFormed(a)
    ensures forall a :: a in Achievements ==> BarWidth(a).Some? && BarWidth(a).value < 100.0
  {
  }
}
