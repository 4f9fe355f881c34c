/** Statistics over an in-memory list of blog records (utils/list_helper.js).
    Every operation reads its input and builds a fresh result; the only state
    that changes is the per-author accumulator that `mostProlificAuthor` and
    `mostLikedAuthor` fill while walking the list, modelled by GroupByAuthor. */
module ListHelper {

  datatype Option<+T> = None | Some(value: T)

  /** One blog record. A record may lack an author; `likes` is always a count. */
  datatype Blog = Blog(id: string, title: string, author: Option<string>, url: string, likes: nat)

  // ---------------------------------------------------------------------
  // Property names of the per-author accumulator object
  // ---------------------------------------------------------------------

  /** The property name a blog is filed under: JavaScript turns a missing
      author into the string "undefined", so such blogs share a group with an
      author literally named "undefined". */
  function KeyOf(author: Option<string>): string {
    match author
    case None => "undefined"
    case Some(name) => name
  }

  function AuthorKey(b: Blog): string {
    KeyOf(b.author)
  }

  /** Two authors share a property name exactly when they are equal, or when
      one is missing and the other is the name "undefined". */
  lemma {:induction false} KeyOfMerges(a: Option<string>, b: Option<string>)
    ensures KeyOf(a) == KeyOf(b) <==>
      a == b || (a.None? && b == Some("undefined")) || (b.None? && a == Some("undefined"))
  {
    match a
    case None =>
      if b.Some? && b.value == "undefined" {
        assert b == Some("undefined");
      }
    case Some(x) =>
      if b.None? && x == "undefined" {
        assert a == Some("undefined");
      }
  }

  predicate IsDigit(c: char) {
    '0' <= c <= '9'
  }

  function DigitValue(c: char): nat
    requires IsDigit(c)
  {
    c as int - '0' as int
  }

  function DecimalValue(s: string): nat
    requires forall i | 0 <= i < |s| :: IsDigit(s[i])
  {
    if s == [] then 0 else DecimalValue(s[..|s| - 1]) * 10 + DigitValue(s[|s| - 1])
  }

  /** An ECMAScript array index written canonically ("0", "17", never "017"),
      below 2^32 - 1. Objects enumerate such keys first, in numeric order,
      instead of in insertion order. */
  predicate IsArrayIndexName(k: string) {
    && |k| > 0
    && (forall i | 0 <= i < |k| :: IsDigit(k[i]))
    && (k[0] != '0' || k == "0")
    && DecimalValue(k) < 0xFFFF_FFFF
  }

  /** Names every plain object inherits from Object.prototype. Looking one of
      them up on a fresh `{}` yields a truthy value, so no group is created. */
  const INHERITED_NAMES: set<string> := {
    "constructor", "__proto__", "hasOwnProperty", "isPrototypeOf",
    "propertyIsEnumerable", "toString", "valueOf", "toLocaleString",
    "__defineGetter__", "__defineSetter__", "__lookupGetter__", "__lookupSetter__"
  }

  /** An author key for which a plain object behaves like an insertion-ordered dictionary. */
  predicate PlainKey(k: string) {
    !IsArrayIndexName(k) && k !in INHERITED_NAMES
  }

  predicate PlainKeys(blogs: seq<Blog>) {
    forall b | b in blogs :: PlainKey(AuthorKey(b))
  }

  // ---------------------------------------------------------------------
  // dummy and totalLikes
  // ---------------------------------------------------------------------

  /** The placeholder statistic: 1 whatever the list. */
  function Dummy(blogs: seq<Blog>): (r: int)
    ensures r == 1
  {
    1
  }

  /** The sum of all likes, folded from the left starting at 0, so the last
      blog is the one added last. */
  function TotalLikes(blogs: seq<Blog>): nat {
    if blogs == [] then 0 else TotalLikes(blogs[..|blogs| - 1]) + blogs[|blogs| - 1].likes
  }

  /** The sum splits over any concatenation; with `b == [x]` this is
      "appending a blog adds exactly its likes", and with `a == []` it is the
      empty sum. */
  lemma {:induction false} TotalLikesConcat(a: seq<Blog>, b: seq<Blog>)
    ensures TotalLikes(a + b) == TotalLikes(a) + TotalLikes(b)
    decreases |b|
  {
    if b == [] {
      assert a + b == a;
    } else {
      var n := |b| - 1;
      assert (a + b)[..|a + b| - 1] == a + b[..n];
      TotalLikesConcat(a, b[..n]);
    }
  }

  /** No single blog has more likes than the whole list. */
  lemma {:induction false} TotalLikesBoundsEach(blogs: seq<Blog>, i: nat)
    requires i < |blogs|
    ensures blogs[i].likes <= TotalLikes(blogs)
    decreases |blogs|
  {
    if i < |blogs| - 1 {
      TotalLikesBoundsEach(blogs[..|blogs| - 1], i);
    }
  }

  // ---------------------------------------------------------------------
  // favoriteBlog
  // ---------------------------------------------------------------------

  /** The reducer of `favoriteBlog`: the running best is replaced only by a
      blog with strictly more likes. */
  function KeepBest(best: Blog, rest: seq<Blog>): (r: Blog)
    ensures r == best || r in rest
    ensures best.likes <= r.likes
    ensures forall b | b in rest :: b.likes <= r.likes
    decreases |rest|
  {
    if rest == [] then best
    else KeepBest(if rest[0].likes > best.likes then rest[0] else best, rest[1..])
  }

  /** `{}` for an empty list, the only blog of a one-blog list, otherwise the
      reduction seeded with the first blog. */
  function FavoriteBlog(blogs: seq<Blog>): (r: Option<Blog>)
    ensures r.None? <==> blogs == []
    ensures |blogs| == 1 ==> r == Some(blogs[0])
    ensures r.Some? ==> r.value in blogs && forall b | b in blogs :: b.likes <= r.value.likes
  {
    if |blogs| == 0 then None
    else if |blogs| == 1 then Some(blogs[0])
    else Some(KeepBest(blogs[0], blogs[1..]))
  }

  /** Index `i` holds the most likes, and every earlier blog has fewer. */
  ghost predicate IsFirstMaximal(blogs: seq<Blog>, i: int) {
    && 0 <= i < |blogs|
    && (forall j | 0 <= j < |blogs| :: blogs[j].likes <= blogs[i].likes)
    && (forall j | 0 <= j < i :: blogs[j].likes < blogs[i].likes)
  }

  /** At most one index is first-maximal. */
  lemma {:induction false} FirstMaximalUnique(blogs: seq<Blog>, i: int, j: int)
    requires IsFirstMaximal(blogs, i) && IsFirstMaximal(blogs, j)
    ensures i == j
  {
    assert blogs[i].likes == blogs[j].likes;
  }

  /** Continuing the reduction from the first-maximal blog of a prefix ends at
      the first-maximal blog of the whole list. */
  lemma {:induction false} KeepBestFromPrefix(blogs: seq<Blog>, n: nat, best: nat)
    requires best < n <= |blogs|
    requires IsFirstMaximal(blogs[..n], best)
    ensures exists i :: IsFirstMaximal(blogs, i) && KeepBest(blogs[best], blogs[n..]) == blogs[i]
    decreases |blogs| - n
  {
    if n == |blogs| {
      assert blogs[..n] == blogs;
      assert IsFirstMaximal(blogs, best);
    } else {
      var next := if blogs[n].likes > blogs[best].likes then n else best;
      assert blogs[..n + 1][..n] == blogs[..n];
      assert IsFirstMaximal(blogs[..n + 1], next);
      assert blogs[n..][1..] == blogs[n + 1..];
      KeepBestFromPrefix(blogs, n + 1, next);
    }
  }

  /** Ties go to the earliest blog: the favourite is the first blog whose likes
      equal the maximum. */
  lemma {:induction false} FavoriteBlogIsFirstMaximal(blogs: seq<Blog>)
    requires blogs != []
    ensures exists i :: IsFirstMaximal(blogs, i) && FavoriteBlog(blogs) == Some(blogs[i])
  {
    assert IsFirstMaximal(blogs[..1], 0);
    if |blogs| == 1 {
      assert IsFirstMaximal(blogs, 0);
    } else {
      KeepBestFromPrefix(blogs, 1, 0);
    }
  }

  // ---------------------------------------------------------------------
  // The per-author accumulator of mostProlificAuthor and mostLikedAuthor
  // ---------------------------------------------------------------------

  /** What a group accumulates: one per blog (the `blogs` counter) or the
      blog's likes (the `likes` sum). */
  datatype Measure = BlogCount | LikeSum

  function Weight(m: Measure, b: Blog): nat {
    match m
    case BlogCount => 1
    case LikeSum => b.likes
  }

  /** One accumulator entry, `{author, blogs}` or `{author, likes}`; `author`
      is that of the blog that created the entry. */
  datatype AuthorStat = AuthorStat(author: Option<string>, total: nat)

  function GroupKey(g: AuthorStat): string {
    KeyOf(g.author)
  }

  /** Position of the entry filed under `k`, or `|groups|` if there is none. */
  function GroupIndex(groups: seq<AuthorStat>, k: string): (p: nat)
    ensures p <= |groups|
    ensures p < |groups| ==> GroupKey(groups[p]) == k
    ensures forall j | 0 <= j < p :: GroupKey(groups[j]) != k
  {
    if groups == [] then 0
    else if GroupKey(groups[0]) == k then 0
    else 1 + GroupIndex(groups[1..], k)
  }

  /** One step of the reduction: add `w` to the entry for `b`'s author,
      creating that entry at the end if it is missing. */
  function Tally(groups: seq<AuthorStat>, b: Blog, w: nat): seq<AuthorStat> {
    if groups == [] then [AuthorStat(b.author, w)]
    else if GroupKey(groups[0]) == AuthorKey(b) then [groups[0].(total := groups[0].total + w)] + groups[1..]
    else [groups[0]] + Tally(groups[1..], b, w)
  }

  /** The accumulator after the whole reduction, in entry-creation order. */
  function Grouped(m: Measure, blogs: seq<Blog>): seq<AuthorStat> {
    if blogs == [] then []
    else
      var last := blogs[|blogs| - 1];
      Tally(Grouped(m, blogs[..|blogs| - 1]), last, Weight(m, last))
  }

  /** A step either bumps the existing entry in place or appends a new one. */
  lemma {:induction false} TallyShape(groups: seq<AuthorStat>, b: Blog, w: nat)
    ensures var p := GroupIndex(groups, AuthorKey(b));
      Tally(groups, b, w) ==
        if p < |groups| then groups[p := groups[p].(total := groups[p].total + w)]
        else groups + [AuthorStat(b.author, w)]
    decreases |groups|
  {
    if groups != [] && GroupKey(groups[0]) != AuthorKey(b) {
      TallyShape(groups[1..], b, w);
    }
  }

  /** When the author already has an entry, the step bumps that entry in place. */
  lemma {:induction false} TallyBumps(groups: seq<AuthorStat>, b: Blog, w: nat, p: nat)
    requires p == GroupIndex(groups, AuthorKey(b)) < |groups|
    ensures Tally(groups, b, w) == groups[p := groups[p].(total := groups[p].total + w)]
  {
    TallyShape(groups, b, w);
  }

  /** When the author has no entry yet, the step appends one at the end. */
  lemma {:induction false} TallyAppends(groups: seq<AuthorStat>, b: Blog, w: nat)
    requires GroupIndex(groups, AuthorKey(b)) == |groups|
    ensures Tally(groups, b, w) == groups + [AuthorStat(b.author, w)]
  {
    TallyShape(groups, b, w);
  }

  // Reference definitions, stated on the blog list alone.

  /** Index of the first blog filed under `k`, or `|blogs|` if there is none. */
  function FirstIndex(blogs: seq<Blog>, k: string): (f: nat)
    ensures f <= |blogs|
    ensures f < |blogs| ==> AuthorKey(blogs[f]) == k
    ensures forall j | 0 <= j < f :: AuthorKey(blogs[j]) != k
  {
    if blogs == [] then 0
    else if AuthorKey(blogs[0]) == k then 0
    else 1 + FirstIndex(blogs[1..], k)
  }

  /** The measure summed over the blogs filed under `k`: the number of `k`'s
      blogs, or the sum of their likes. */
  function TotalBy(m: Measure, blogs: seq<Blog>, k: string): nat {
    if blogs == [] then 0
    else
      var last := blogs[|blogs| - 1];
      TotalBy(m, blogs[..|blogs| - 1], k) + (if AuthorKey(last) == k then Weight(m, last) else 0)
  }

  /** The measure summed over every blog. */
  function SumWeights(m: Measure, blogs: seq<Blog>): nat {
    if blogs == [] then 0 else SumWeights(m, blogs[..|blogs| - 1]) + Weight(m, blogs[|blogs| - 1])
  }

  function SumTotals(groups: seq<AuthorStat>): nat {
    if groups == [] then 0 else groups[0].total + SumTotals(groups[1..])
  }

  lemma {:induction false} FirstIndexOfBlog(blogs: seq<Blog>, j: nat)
    requires j < |blogs|
    ensures FirstIndex(blogs, AuthorKey(blogs[j])) <= j
  {
  }

  /** Extending the list leaves an earlier first occurrence where it was. */
  lemma {:induction false} FirstIndexSnoc(blogs: seq<Blog>, k: string)
    requires blogs != []
    ensures var n := |blogs| - 1;
      var f := FirstIndex(blogs[..n], k);
      FirstIndex(blogs, k) == if f < n then f else if AuthorKey(blogs[n]) == k then n else n + 1
  {
    var n := |blogs| - 1;
    assert forall j | 0 <= j < n :: blogs[..n][j] == blogs[j];
  }

  lemma {:induction false} TotalByAbsent(m: Measure, blogs: seq<Blog>, k: string)
    requires forall j | 0 <= j < |blogs| :: AuthorKey(blogs[j]) != k
    ensures TotalBy(m, blogs, k) == 0
    decreases |blogs|
  {
    if blogs != [] {
      var pre := blogs[..|blogs| - 1];
      assert forall j | 0 <= j < |pre| :: pre[j] == blogs[j];
      TotalByAbsent(m, pre, k);
    }
  }

  /** Every entry belongs to an author of the list and carries the author of
      that author's first blog. */
  ghost predicate EntriesFromList(blogs: seq<Blog>, g: seq<AuthorStat>) {
    forall i | 0 <= i < |g| ::
      FirstIndex(blogs, GroupKey(g[i])) < |blogs| &&
      blogs[FirstIndex(blogs, GroupKey(g[i]))].author == g[i].author
  }

  /** Every entry holds its author's total. */
  ghost predicate EntriesHoldTotals(m: Measure, blogs: seq<Blog>, g: seq<AuthorStat>) {
    forall i | 0 <= i < |g| :: g[i].total == TotalBy(m, blogs, GroupKey(g[i]))
  }

  /** Entries appear in the order their authors first appear in the list, so
      no author has two entries. */
  ghost predicate EntriesInFirstOrder(blogs: seq<Blog>, g: seq<AuthorStat>) {
    forall i, j | 0 <= i < j < |g| ::
      FirstIndex(blogs, GroupKey(g[i])) < FirstIndex(blogs, GroupKey(g[j]))
  }

  /** Every author of the list has an entry. */
  ghost predicate EveryAuthorHasEntry(blogs: seq<Blog>, g: seq<AuthorStat>) {
    forall j | 0 <= j < |blogs| :: GroupIndex(g, AuthorKey(blogs[j])) < |g|
  }

  /** What the accumulator holds after reducing `blogs`. */
  ghost predicate GroupedWell(m: Measure, blogs: seq<Blog>, g: seq<AuthorStat>) {
    && EntriesFromList(blogs, g)
    && EntriesHoldTotals(m, blogs, g)
    && EntriesInFirstOrder(blogs, g)
    && EveryAuthorHasEntry(blogs, g)
  }

  /** GroupIndex is pinned down by its postconditions. */
  lemma {:induction false} GroupIndexIs(g: seq<AuthorStat>, k: string, p: nat)
    requires p <= |g|
    requires p < |g| ==> GroupKey(g[p]) == k
    requires forall j | 0 <= j < p :: GroupKey(g[j]) != k
    ensures GroupIndex(g, k) == p
  {
  }

  /** Entries with the same authors are looked up alike. */
  lemma {:induction false} GroupIndexSameAuthors(g: seq<AuthorStat>, g': seq<AuthorStat>, k: string)
    requires |g'| == |g|
    requires forall i | 0 <= i < |g| :: g'[i].author == g[i].author
    ensures GroupIndex(g', k) == GroupIndex(g, k)
  {
    GroupIndexIs(g', k, GroupIndex(g, k));
  }

  /** Appending an entry leaves earlier lookups unchanged and makes the new key found. */
  lemma {:induction false} GroupIndexAppend(g: seq<AuthorStat>, x: AuthorStat, k: string)
    requires GroupIndex(g, k) < |g| || GroupKey(x) == k
    ensures GroupIndex(g + [x], k) < |g| + 1
  {
    var p := GroupIndex(g, k);
    assert forall j | 0 <= j < |g| :: (g + [x])[j] == g[j];
    GroupIndexIs(g + [x], k, p);
  }

  /** Entries already present keep their first occurrence when a blog is added. */
  lemma {:induction false} EntriesKeepFirstIndex(blogs: seq<Blog>, g: seq<AuthorStat>)
    requires blogs != []
    requires EntriesFromList(blogs[..|blogs| - 1], g)
    ensures forall i | 0 <= i < |g| ::
      FirstIndex(blogs, GroupKey(g[i])) == FirstIndex(blogs[..|blogs| - 1], GroupKey(g[i])) < |blogs| - 1
  {
    forall i | 0 <= i < |g|
      ensures FirstIndex(blogs, GroupKey(g[i])) == FirstIndex(blogs[..|blogs| - 1], GroupKey(g[i])) < |blogs| - 1
    {
      FirstIndexSnoc(blogs, GroupKey(g[i]));
    }
  }

  /** Position and author facts carry over to a longer list and to entries
      with the same authors. */
  lemma {:induction false} PlacementCarriesOver(blogs: seq<Blog>, g: seq<AuthorStat>, g': seq<AuthorStat>)
    requires blogs != []
    requires EntriesFromList(blogs[..|blogs| - 1], g) && EntriesInFirstOrder(blogs[..|blogs| - 1], g)
    requires |g'| == |g| && forall i | 0 <= i < |g| :: g'[i].author == g[i].author
    ensures EntriesFromList(blogs, g') && EntriesInFirstOrder(blogs, g')
  {
    EntriesKeepFirstIndex(blogs, g);
    assert forall i | 0 <= i < |g| :: GroupKey(g'[i]) == GroupKey(g[i]);
  }

  /** Entries in first-appearance order have pairwise different keys. */
  lemma {:induction false} KeysDistinct(blogs: seq<Blog>, g: seq<AuthorStat>, i: nat, j: nat)
    requires EntriesInFirstOrder(blogs, g)
    requires i < |g| && j < |g| && i != j
    ensures GroupKey(g[i]) != GroupKey(g[j])
  {
    if i < j {
      assert FirstIndex(blogs, GroupKey(g[i])) < FirstIndex(blogs, GroupKey(g[j]));
    } else {
      assert FirstIndex(blogs, GroupKey(g[j])) < FirstIndex(blogs, GroupKey(g[i]));
    }
  }

  /** A key without an entry belongs to no blog of the list. */
  lemma {:induction false} KeyAbsent(blogs: seq<Blog>, g: seq<AuthorStat>, k: string)
    requires EveryAuthorHasEntry(blogs, g)
    requires GroupIndex(g, k) == |g|
    ensures forall j | 0 <= j < |blogs| :: AuthorKey(blogs[j]) != k
  {
    forall j | 0 <= j < |blogs|
      ensures AuthorKey(blogs[j]) != k
    {
      var q := GroupIndex(g, AuthorKey(blogs[j]));
      assert GroupKey(g[q]) == AuthorKey(blogs[j]);
    }
  }

  lemma {:induction false} ExistingTotals(m: Measure, blogs: seq<Blog>, g: seq<AuthorStat>, p: nat)
    requires blogs != []
    requires EntriesHoldTotals(m, blogs[..|blogs| - 1], g) && EntriesInFirstOrder(blogs[..|blogs| - 1], g)
    requires p == GroupIndex(g, AuthorKey(blogs[|blogs| - 1])) < |g|
    ensures var w := Weight(m, blogs[|blogs| - 1]);
      EntriesHoldTotals(m, blogs, g[p := g[p].(total := g[p].total + w)])
  {
    var n := |blogs| - 1;
    var g' := g[p := g[p].(total := g[p].total + Weight(m, blogs[n]))];
    forall i | 0 <= i < |g'|
      ensures g'[i].total == TotalBy(m, blogs, GroupKey(g'[i]))
    {
      if i != p {
        KeysDistinct(blogs[..n], g, i, p);
      }
    }
  }

  lemma {:induction false} ExistingCover(blogs: seq<Blog>, g: seq<AuthorStat>, g': seq<AuthorStat>)
    requires blogs != []
    requires EveryAuthorHasEntry(blogs[..|blogs| - 1], g)
    requires GroupIndex(g, AuthorKey(blogs[|blogs| - 1])) < |g|
    requires |g'| == |g| && forall i | 0 <= i < |g| :: g'[i].author == g[i].author
    ensures EveryAuthorHasEntry(blogs, g')
  {
    var n := |blogs| - 1;
    forall j | 0 <= j < |blogs|
      ensures GroupIndex(g', AuthorKey(blogs[j])) < |g'|
    {
      GroupIndexSameAuthors(g, g', AuthorKey(blogs[j]));
      if j < n {
        assert blogs[..n][j] == blogs[j];
      }
    }
  }

  /** Bumping the entry of the last blog's author keeps the accumulator well grouped. */
  lemma {:induction false} BumpKeepsGrouping(m: Measure, blogs: seq<Blog>, g: seq<AuthorStat>, p: nat, g': seq<AuthorStat>)
    requires blogs != []
    requires GroupedWell(m, blogs[..|blogs| - 1], g)
    requires p == GroupIndex(g, AuthorKey(blogs[|blogs| - 1])) < |g|
    requires g' == g[p := g[p].(total := g[p].total + Weight(m, blogs[|blogs| - 1]))]
    ensures GroupedWell(m, blogs, g')
  {
    PlacementCarriesOver(blogs, g, g');
    ExistingTotals(m, blogs, g, p);
    ExistingCover(blogs, g, g');
  }

  /** The step that adds to an existing entry keeps the accumulator well grouped. */
  lemma {:induction false} TallyStepExisting(m: Measure, blogs: seq<Blog>, g: seq<AuthorStat>, p: nat)
    requires blogs != []
    requires GroupedWell(m, blogs[..|blogs| - 1], g)
    requires p == GroupIndex(g, AuthorKey(blogs[|blogs| - 1])) < |g|
    ensures GroupedWell(m, blogs, Tally(g, blogs[|blogs| - 1], Weight(m, blogs[|blogs| - 1])))
  {
    var b := blogs[|blogs| - 1];
    TallyBumps(g, b, Weight(m, b), p);
    BumpKeepsGrouping(m, blogs, g, p, Tally(g, b, Weight(m, b)));
  }

  lemma {:induction false} NewPlacement(blogs: seq<Blog>, g: seq<AuthorStat>, x: AuthorStat)
    requires blogs != []
    requires EntriesFromList(blogs[..|blogs| - 1], g) && EntriesInFirstOrder(blogs[..|blogs| - 1], g)
    requires EveryAuthorHasEntry(blogs[..|blogs| - 1], g)
    requires x.author == blogs[|blogs| - 1].author
    requires GroupIndex(g, GroupKey(x)) == |g|
    ensures EntriesFromList(blogs, g + [x]) && EntriesInFirstOrder(blogs, g + [x])
  {
    var n := |blogs| - 1;
    var k := GroupKey(x);
    PlacementCarriesOver(blogs, g, g);
    EntriesKeepFirstIndex(blogs, g);
    KeyAbsent(blogs[..n], g, k);
    FirstIndexSnoc(blogs, k);
    assert FirstIndex(blogs, k) == n;
    assert forall i | 0 <= i < |g| :: (g + [x])[i] == g[i];
  }

  lemma {:induction false} NewTotals(m: Measure, blogs: seq<Blog>, g: seq<AuthorStat>)
    requires blogs != []
    requires EntriesHoldTotals(m, blogs[..|blogs| - 1], g) && EveryAuthorHasEntry(blogs[..|blogs| - 1], g)
    requires GroupIndex(g, AuthorKey(blogs[|blogs| - 1])) == |g|
    ensures var b := blogs[|blogs| - 1];
      EntriesHoldTotals(m, blogs, g + [AuthorStat(b.author, Weight(m, b))])
  {
    var n := |blogs| - 1;
    var k := AuthorKey(blogs[n]);
    KeyAbsent(blogs[..n], g, k);
    TotalByAbsent(m, blogs[..n], k);
    assert forall i | 0 <= i < |g| :: GroupKey(g[i]) != k;
  }

  lemma {:induction false} NewCover(blogs: seq<Blog>, g: seq<AuthorStat>, x: AuthorStat)
    requires blogs != []
    requires EveryAuthorHasEntry(blogs[..|blogs| - 1], g)
    requires GroupKey(x) == AuthorKey(blogs[|blogs| - 1])
    ensures EveryAuthorHasEntry(blogs, g + [x])
  {
    var n := |blogs| - 1;
    forall j | 0 <= j < |blogs|
      ensures GroupIndex(g + [x], AuthorKey(blogs[j])) < |g + [x]|
    {
      if j < n {
        assert blogs[..n][j] == blogs[j];
      }
      GroupIndexAppend(g, x, AuthorKey(blogs[j]));
    }
  }

  /** The step that creates an entry keeps the accumulator well grouped. */
  lemma {:induction false} TallyStepNew(m: Measure, blogs: seq<Blog>, g: seq<AuthorStat>)
    requires blogs != []
    requires GroupedWell(m, blogs[..|blogs| - 1], g)
    requires GroupIndex(g, AuthorKey(blogs[|blogs| - 1])) == |g|
    ensures GroupedWell(m, blogs, Tally(g, blogs[|blogs| - 1], Weight(m, blogs[|blogs| - 1])))
  {
    var b := blogs[|blogs| - 1];
    var w := Weight(m, b);
    var x := AuthorStat(b.author, w);
    TallyAppends(g, b, w);
    NewPlacement(blogs, g, x);
    NewTotals(m, blogs, g);
    NewCover(blogs, g, x);
  }

  /** One reduction step keeps the accumulator well grouped. */
  lemma {:induction false} TallyStep(m: Measure, blogs: seq<Blog>, g: seq<AuthorStat>)
    requires blogs != []
    requires GroupedWell(m, blogs[..|blogs| - 1], g)
    ensures GroupedWell(m, blogs, Tally(g, blogs[|blogs| - 1], Weight(m, blogs[|blogs| - 1])))
  {
    var p := GroupIndex(g, AuthorKey(blogs[|blogs| - 1]));
    if p < |g| {
      TallyStepExisting(m, blogs, g, p);
    } else {
      TallyStepNew(m, blogs, g);
    }
  }

  /** After any number of steps the accumulator holds one entry per author, in
      order of each author's first blog, with that author's total. */
  lemma {:induction false} GroupedByFirstAppearance(m: Measure, blogs: seq<Blog>)
    ensures GroupedWell(m, blogs, Grouped(m, blogs))
    decreases |blogs|
  {
    if blogs != [] {
      GroupedByFirstAppearance(m, blogs[..|blogs| - 1]);
      TallyStep(m, blogs, Grouped(m, blogs[..|blogs| - 1]));
    }
  }

  lemma {:induction false} TallySum(groups: seq<AuthorStat>, b: Blog, w: nat)
    ensures SumTotals(Tally(groups, b, w)) == SumTotals(groups) + w
    decreases |groups|
  {
    if groups != [] {
      if GroupKey(groups[0]) == AuthorKey(b) {
        assert ([groups[0].(total := groups[0].total + w)] + groups[1..])[1..] == groups[1..];
      } else {
        assert ([groups[0]] + Tally(groups[1..], b, w))[1..] == Tally(groups[1..], b, w);
        TallySum(groups[1..], b, w);
      }
    }
  }

  lemma {:induction false} GroupedSum(m: Measure, blogs: seq<Blog>)
    ensures SumTotals(Grouped(m, blogs)) == SumWeights(m, blogs)
    decreases |blogs|
  {
    if blogs != [] {
      var last := blogs[|blogs| - 1];
      GroupedSum(m, blogs[..|blogs| - 1]);
      TallySum(Grouped(m, blogs[..|blogs| - 1]), last, Weight(m, last));
    }
  }

  lemma {:induction false} SumWeightsByMeasure(blogs: seq<Blog>)
    ensures SumWeights(BlogCount, blogs) == |blogs|
    ensures SumWeights(LikeSum, blogs) == TotalLikes(blogs)
    decreases |blogs|
  {
    if blogs != [] {
      SumWeightsByMeasure(blogs[..|blogs| - 1]);
    }
  }

  /** The accumulators lose nothing: per-author blog counts add up to the
      number of blogs, and per-author like sums add up to TotalLikes. */
  lemma {:induction false} GroupedTotals(blogs: seq<Blog>)
    ensures SumTotals(Grouped(BlogCount, blogs)) == |blogs|
    ensures SumTotals(Grouped(LikeSum, blogs)) == TotalLikes(blogs)
  {
    GroupedSum(BlogCount, blogs);
    GroupedSum(LikeSum, blogs);
    SumWeightsByMeasure(blogs);
  }

  /** `slot` maps each key to the position of its entry, as the source's object does. */
  ghost predicate SlotsIndex(slot: map<string, nat>, groups: seq<AuthorStat>) {
    && (forall k | k in slot :: slot[k] < |groups| && GroupKey(groups[slot[k]]) == k)
    && (forall j | 0 <= j < |groups| :: GroupKey(groups[j]) in slot && slot[GroupKey(groups[j])] == j)
  }

  /** Looking a key up in the slot map agrees with searching the entries. */
  lemma {:induction false} SlotLookup(slot: map<string, nat>, groups: seq<AuthorStat>, k: string)
    requires SlotsIndex(slot, groups)
    ensures k in slot ==> GroupIndex(groups, k) == slot[k]
    ensures k !in slot ==> GroupIndex(groups, k) == |groups|
  {
    if k in slot {
      assert GroupKey(groups[slot[k]]) == k;
    }
  }

  lemma {:induction false} SlotsAfterBump(slot: map<string, nat>, groups: seq<AuthorStat>, p: nat, w: nat)
    requires SlotsIndex(slot, groups) && p < |groups|
    ensures SlotsIndex(slot, groups[p := groups[p].(total := groups[p].total + w)])
  {
    var g' := groups[p := groups[p].(total := groups[p].total + w)];
    assert forall j | 0 <= j < |groups| :: GroupKey(g'[j]) == GroupKey(groups[j]);
  }

  lemma {:induction false} SlotsAfterAppend(slot: map<string, nat>, groups: seq<AuthorStat>, x: AuthorStat)
    requires SlotsIndex(slot, groups) && GroupKey(x) !in slot
    ensures SlotsIndex(slot[GroupKey(x) := |groups|], groups + [x])
  {
    assert forall j | 0 <= j < |groups| :: (groups + [x])[j] == groups[j];
  }

  /** The reduction callback: make sure the blog's author has an entry, then
      add the blog's weight to it. */
  method AddToAuthor(m: Measure, slot: map<string, nat>, groups: seq<AuthorStat>, blog: Blog)
    returns (slot': map<string, nat>, groups': seq<AuthorStat>)
    requires SlotsIndex(slot, groups)
    ensures SlotsIndex(slot', groups')
    ensures groups' == Tally(groups, blog, Weight(m, blog))
  {
    var author := AuthorKey(blog);
    var w := Weight(m, blog);
    SlotLookup(slot, groups, author);
    slot', groups' := slot, groups;
    if author !in slot' {
      TallyAppends(groups, blog, w);
      SlotsAfterAppend(slot', groups', AuthorStat(blog.author, 0));
      slot' := slot'[author := |groups'|];
      groups' := groups' + [AuthorStat(blog.author, 0)];
    } else {
      TallyBumps(groups, blog, w, slot[author]);
    }
    var p := slot'[author];
    SlotsAfterBump(slot', groups', p, w);
    groups' := groups'[p := groups'[p].(total := groups'[p].total + w)];
  }

  /** The reduction of `blogsPerAuthor` / `likesPerAuthor`: a loop over the
      blogs that fills an insertion-ordered dictionary, starting empty. */
  method GroupByAuthor(m: Measure, blogs: seq<Blog>) returns (groups: seq<AuthorStat>)
    requires PlainKeys(blogs)
    ensures groups == Grouped(m, blogs)
  {
    groups := [];
    var slot: map<string, nat> := map[];
    for i := 0 to |blogs|
      invariant groups == Grouped(m, blogs[..i])
      invariant SlotsIndex(slot, groups)
    {
      assert blogs[..i + 1][..i] == blogs[..i];
      slot, groups := AddToAuthor(m, slot, groups, blogs[i]);
    }
    assert blogs[..|blogs|] == blogs;
  }

  // ---------------------------------------------------------------------
  // mostProlificAuthor and mostLikedAuthor
  // ---------------------------------------------------------------------

  /** The largest total among the entries (the source spreads them into Math.max). */
  function MaxTotal(groups: seq<AuthorStat>): (mx: nat)
    requires groups != []
    ensures forall g | g in groups :: g.total <= mx
    ensures exists g | g in groups :: g.total == mx
    decreases |groups|
  {
    if |groups| == 1 then groups[0].total
    else
      var rest := MaxTotal(groups[1..]);
      assert forall g | g in groups :: g == groups[0] || g in groups[1..];
      if groups[0].total > rest then groups[0].total else rest
  }

  /** `find`: position of the first entry whose total is `target`, or
      `|groups|` when `find` would give `undefined`. */
  function FindByTotal(groups: seq<AuthorStat>, target: nat): (p: nat)
    ensures p <= |groups|
    ensures p < |groups| ==> groups[p].total == target
    ensures forall j | 0 <= j < p :: groups[j].total != target
  {
    if groups == [] then 0
    else if groups[0].total == target then 0
    else 1 + FindByTotal(groups[1..], target)
  }

  /** `author`/`total` describe the leading author of `blogs` under `m`:
      an author of the list (the `author` of that author's first blog), whose
      total is that author's true total, no author has a larger total, and
      every author whose first blog comes earlier has a strictly smaller one. */
  ghost predicate IsLeader(m: Measure, blogs: seq<Blog>, author: Option<string>, total: nat) {
    var k := KeyOf(author);
    var f := FirstIndex(blogs, k);
    && f < |blogs| && blogs[f].author == author
    && total == TotalBy(m, blogs, k)
    && (forall j | 0 <= j < |blogs| :: TotalBy(m, blogs, AuthorKey(blogs[j])) <= total)
    && (forall j | 0 <= j < f :: TotalBy(m, blogs, AuthorKey(blogs[j])) < total)
  }

  /** A list has at most one leader under a measure. */
  lemma {:induction false} LeaderUnique(m: Measure, blogs: seq<Blog>, a1: Option<string>, t1: nat, a2: Option<string>, t2: nat)
    requires IsLeader(m, blogs, a1, t1) && IsLeader(m, blogs, a2, t2)
    ensures a1 == a2 && t1 == t2
  {
    var f1 := FirstIndex(blogs, KeyOf(a1));
    var f2 := FirstIndex(blogs, KeyOf(a2));
    assert TotalBy(m, blogs, AuthorKey(blogs[f1])) == t1;
    assert TotalBy(m, blogs, AuthorKey(blogs[f2])) == t2;
    assert t1 == t2;
    if f1 < f2 {
      assert false;
    } else if f2 < f1 {
      assert false;
    }
  }

  /** No author's total exceeds the largest entry. */
  lemma {:induction false} LeaderBound(m: Measure, blogs: seq<Blog>, groups: seq<AuthorStat>, mx: nat)
    requires EntriesHoldTotals(m, blogs, groups) && EveryAuthorHasEntry(blogs, groups)
    requires forall g | g in groups :: g.total <= mx
    ensures forall j | 0 <= j < |blogs| :: TotalBy(m, blogs, AuthorKey(blogs[j])) <= mx
  {
    forall j | 0 <= j < |blogs|
      ensures TotalBy(m, blogs, AuthorKey(blogs[j])) <= mx
    {
      var r := GroupIndex(groups, AuthorKey(blogs[j]));
      assert groups[r] in groups;
    }
  }

  /** Searching for the maximum total always finds an entry. */
  lemma {:induction false} FoundInRange(groups: seq<AuthorStat>, mx: nat, p: nat)
    requires groups != [] && mx == MaxTotal(groups)
    requires p == FindByTotal(groups, mx)
    ensures p < |groups|
  {
    var g :| g in groups && g.total == mx;
    var q :| 0 <= q < |groups| && groups[q] == g;
    assert p <= q;
  }

  /** Entries in first-appearance order are ordered as their first blogs are. */
  lemma {:induction false} FirstOrderReflects(blogs: seq<Blog>, g: seq<AuthorStat>, a: nat, b: nat)
    requires EntriesInFirstOrder(blogs, g)
    requires a < |g| && b < |g|
    requires FirstIndex(blogs, GroupKey(g[a])) < FirstIndex(blogs, GroupKey(g[b]))
    ensures a < b
  {
  }

  /** Authors who appear before the first entry holding the maximum have a smaller total. */
  lemma {:induction false} EarlierAuthorsTrail(m: Measure, blogs: seq<Blog>, groups: seq<AuthorStat>, mx: nat, p: nat)
    requires GroupedWell(m, blogs, groups)
    requires forall g | g in groups :: g.total <= mx
    requires p < |groups| && forall j | 0 <= j < p :: groups[j].total != mx
    ensures forall j | 0 <= j < FirstIndex(blogs, GroupKey(groups[p])) :: TotalBy(m, blogs, AuthorKey(blogs[j])) < mx
  {
    var f := FirstIndex(blogs, GroupKey(groups[p]));
    forall j | 0 <= j < f
      ensures TotalBy(m, blogs, AuthorKey(blogs[j])) < mx
    {
      var r := GroupIndex(groups, AuthorKey(blogs[j]));
      FirstIndexOfBlog(blogs, j);
      assert groups[r] in groups;
      FirstOrderReflects(blogs, groups, r, p);
    }
  }

  /** The entry the source picks names the leading author with their total. */
  lemma {:induction false} FoundIsLeader(m: Measure, blogs: seq<Blog>, groups: seq<AuthorStat>, mx: nat, p: nat)
    requires groups == Grouped(m, blogs) && groups != []
    requires mx == MaxTotal(groups)
    requires p == FindByTotal(groups, mx)
    ensures p < |groups| && IsLeader(m, blogs, groups[p].author, groups[p].total)
  {
    GroupedByFirstAppearance(m, blogs);
    FoundInRange(groups, mx, p);
    LeaderBound(m, blogs, groups, mx);
    EarlierAuthorsTrail(m, blogs, groups, mx, p);
  }


  datatype AuthorBlogs = AuthorBlogs(author: Option<string>, blogs: nat)

  datatype AuthorLikes = AuthorLikes(author: Option<string>, likes: nat)

  /** The author with the most blogs, with that number; `{}` for no blogs. */
  method MostProlificAuthor(blogs: seq<Blog>) returns (r: Option<AuthorBlogs>)
    requires PlainKeys(blogs)
    ensures r.None? <==> blogs == []
    ensures r.Some? ==> IsLeader(BlogCount, blogs, r.value.author, r.value.blogs)
  {
    if |blogs| == 0 {
      return None;
    }
    var authors := GroupByAuthor(BlogCount, blogs);
    GroupedByFirstAppearance(BlogCount, blogs);
    assert GroupIndex(authors, AuthorKey(blogs[0])) < |authors|;
    var maxBlogs := MaxTotal(authors);
    var p := FindByTotal(authors, maxBlogs);
    FoundIsLeader(BlogCount, blogs, authors, maxBlogs, p);
    r := Some(AuthorBlogs(authors[p].author, authors[p].total));
  }

  /** The author whose blogs have the most likes in all, with that sum; `{}`
      for no blogs. */
  method MostLikedAuthor(blogs: seq<Blog>) returns (r: Option<AuthorLikes>)
    requires PlainKeys(blogs)
    ensures r.None? <==> blogs == []
    ensures r.Some? ==> IsLeader(LikeSum, blogs, r.value.author, r.value.likes)
  {
    if |blogs| == 0 {
      return None;
    }
    var authors := GroupByAuthor(LikeSum, blogs);
    GroupedByFirstAppearance(LikeSum, blogs);
    assert GroupIndex(authors, AuthorKey(blogs[0])) < |authors|;
    var maxLikes := MaxTotal(authors);
    var p := FindByTotal(authors, maxLikes);
    FoundIsLeader(LikeSum, blogs, authors, maxLikes, p);
    r := Some(AuthorLikes(authors[p].author, authors[p].total));
  }
}
