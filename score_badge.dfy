/**
 * The rating badge of the front end: a rating word becomes a number, the number
 * becomes a row of five stars (filled, half or empty), and the word selects a
 * colour and an icon, with the "Average" style as the fallback.
 */
module ScoreBadge {
  import opened Wrappers

  /** The five rating words the back end produces. */
  predicate IsKnownRating(rating: string) {
    rating in {"Excellent", "Good", "Average", "Poor", "Bad"}
  }

  /** `getNumericScore`: the star value of a rating word; any other word scores 0. */
  function NumericScore(rating: string): (n: real)
    ensures 0.0 <= n <= 4.5
    ensures n == 0.0 <==> !IsKnownRating(rating)
    ensures IsKnownRating(rating) ==> 1.0 <= n
    ensures n == 4.5 <==> rating == "Excellent"
    ensures n == 3.5 <==> rating == "Good"
    ensures n == 2.5 <==> rating == "Average"
    ensures n == 2.0 <==> rating == "Poor"
    ensures n == 1.0 <==> rating == "Bad"
  {
    match rating
    case "Excellent" => 4.5
    case "Good" => 3.5
    case "Average" => 2.5
    case "Poor" => 2.0
    case "Bad" => 1.0
    case _ => 0.0
  }

  /** `Math.ceil` on a real. */
  function Ceil(x: real): (c: int)
    ensures x <= c as real < x + 1.0
  {
    if x.Floor as real == x then x.Floor else x.Floor + 1
  }

  /** `n % 1 !== 0`: the number has a fractional part. */
  predicate IsFractional(n: real) {
    n.Floor as real != n
  }

  datatype Star = Filled | Half | Empty

  const TotalStars: nat := 5

  /**
   * The state of the star at `index`, as `StarRating` decides it: filled when
   * `index + 1 <= floor(n)`, half when not filled, `index + 1 <= ceil(n)` and
   * `n` has a fractional part. Equivalently: the first `floor(n)` stars are
   * filled and a fractional `n` adds one half star right after them.
   */
  function StarAt(n: real, index: nat): (s: Star)
    ensures s == Filled <==> index < n.Floor
    ensures s == Half <==> index == n.Floor && IsFractional(n)
  {
    var isFilled := index + 1 <= n.Floor;
    var isHalf := !isFilled && index + 1 <= Ceil(n) && IsFractional(n);
    if isFilled then Filled else if isHalf then Half else Empty
  }

  /** The row of stars drawn for a rating word. */
  function Stars(rating: string): (row: seq<Star>)
    ensures |row| == TotalStars
  {
    var n := NumericScore(rating);
    seq(TotalStars, i requires 0 <= i < TotalStars => StarAt(n, i))
  }

  function Count(row: seq<Star>, s: Star): (k: nat)
    ensures k <= |row|
  {
    if row == [] then 0 else (if row[0] == s then 1 else 0) + Count(row[1..], s)
  }

  /**
   * The filled stars form a prefix whose length is the integer part of the
   * score; a half star appears only for a fractional score, and then exactly
   * at the index right after the filled prefix.
   */
  lemma StarsShape(rating: string)
    ensures var n := NumericScore(rating);
            forall i :: 0 <= i < TotalStars ==>
              (Stars(rating)[i] == Filled <==> i < n.Floor) &&
              (Stars(rating)[i] == Half <==> i == n.Floor && IsFractional(n))
  {
  }

  /** There is at most one half star in any row. */
  lemma AtMostOneHalf(rating: string, i: nat, j: nat)
    requires i < TotalStars && j < TotalStars
    requires Stars(rating)[i] == Half && Stars(rating)[j] == Half
    ensures i == j
  {
  }

  /** The number of filled stars and half stars, per rating word. */
  function StarCounts(rating: string): (counts: (nat, nat))
    ensures counts.0 + counts.1 <= TotalStars
  {
    CountAll(Stars(rating));
    (Count(Stars(rating), Filled), Count(Stars(rating), Half))
  }

  lemma CountAll(row: seq<Star>)
    ensures Count(row, Filled) + Count(row, Half) + Count(row, Empty) == |row|
  {
    if row != [] {
      CountAll(row[1..]);
    }
  }

  function Indicator(b: bool): nat {
    if b then 1 else 0
  }

  /** The count over a row of five stars, written out star by star. */
  lemma {:induction false} CountFive(row: seq<Star>, s: Star)
    requires |row| == 5
    ensures Count(row, s) == Indicator(row[0] == s) + Indicator(row[1] == s) + Indicator(row[2] == s)
                             + Indicator(row[3] == s) + Indicator(row[4] == s)
  {
    assert row[1..][1..] == row[2..];
    assert row[2..][1..] == row[3..];
    assert row[3..][1..] == row[4..];
    assert row[4..][1..] == [];
    assert Count(row[4..], s) == Indicator(row[4] == s);
    assert Count(row[3..], s) == Indicator(row[3] == s) + Count(row[4..], s);
    assert Count(row[2..], s) == Indicator(row[2] == s) + Count(row[3..], s);
    assert Count(row[1..], s) == Indicator(row[1] == s) + Count(row[2..], s);
  }

  /** The filled and half star counts for every rating word. */
  lemma {:induction false} StarCountTable(rating: string)
    ensures rating == "Excellent" ==> StarCounts(rating) == (4, 1)
    ensures rating == "Good" ==> StarCounts(rating) == (3, 1)
    ensures rating == "Average" ==> StarCounts(rating) == (2, 1)
    ensures rating == "Poor" ==> StarCounts(rating) == (2, 0)
    ensures rating == "Bad" ==> StarCounts(rating) == (1, 0)
    ensures !IsKnownRating(rating) ==> StarCounts(rating) == (0, 0)
  {
    CountFive(Stars(rating), Filled);
    CountFive(Stars(rating), Half);
  }

  datatype Icon = Check | AlertTriangle | Cross

  datatype BadgeStyle = BadgeStyle(color: string, icon: Icon)

  /** The entry of `scoreConfig` for a known rating word. */
  function KnownStyle(rating: string): BadgeStyle
    requires IsKnownRating(rating)
  {
    match rating
    case "Excellent" => BadgeStyle("bg-purple-100 text-purple-800", Check)
    case "Good" => BadgeStyle("bg-green-100 text-green-800", Check)
    case "Average" => BadgeStyle("bg-yellow-100 text-yellow-800", AlertTriangle)
    case "Poor" => BadgeStyle("bg-orange-100 text-orange-800", AlertTriangle)
    case "Bad" => BadgeStyle("bg-red-100 text-red-800", Cross)
  }

  /**
   * The names every JavaScript object inherits from `Object.prototype`: looking
   * one of them up in the `scoreConfig` object literal finds the inherited
   * member (a function, or the prototype itself for `__proto__`), not `undefined`.
   */
  predicate IsInheritedName(word: string) {
    word in {"constructor", "hasOwnProperty", "isPrototypeOf", "propertyIsEnumerable",
             "toLocaleString", "toString", "valueOf", "__proto__",
             "__defineGetter__", "__defineSetter__", "__lookupGetter__", "__lookupSetter__"}
  }

  /**
   * `scoreConfig[score] || scoreConfig['Average']`: a known word gets its own
   * badge; a word the object does not hold at all gets the "Average" badge,
   * although its star row is empty; an inherited name is truthy, so there is
   * no fallback and the inherited member has no `icon`: `None`, the badge
   * cannot be drawn.
   */
  function BadgeStyleFor(rating: string): (style: Option<BadgeStyle>)
    ensures IsKnownRating(rating) ==> style == Some(KnownStyle(rating))
    ensures style.None? <==> IsInheritedName(rating)
    ensures !IsKnownRating(rating) && !IsInheritedName(rating) ==>
              style == Some(KnownStyle("Average")) && StarCounts(rating) == (0, 0)
  {
    StarCountTable(rating);
    if IsKnownRating(rating) then Some(KnownStyle(rating))
    else if IsInheritedName(rating) then None
    else Some(KnownStyle("Average"))
  }
}
