# Blog-list statistics helpers, modelled in Dafny

The blog-list service keeps a small module of statistics over an in-memory list
of blog records, `utils/list_helper.js`. It provides five operations:

- `dummy`: always returns 1.
- `totalLikes`: the sum of all likes.
- `favoriteBlog`: the blog with the most likes. On a tie, the first such blog wins.
- `mostProlificAuthor`: the author with the most blogs.
- `mostLikedAuthor`: the author whose blogs have the most likes in total.

The two author statistics share one technique. A reduction walks the list and fills an object
keyed by author name, creating an entry the first time an author is seen and adding
to it afterwards. The code then takes the maximum over the entries and returns the
first entry that reaches it. The module also carries a six-record sample list.

The model has two modules.

- `list_helper.dfy` (module `ListHelper`) models the five operations.
  - `totalLikes` and `favoriteBlog` are pure folds, so they are recursive functions.
  - The per-author accumulator is a method: a `for` loop over the blogs. It updates an
    insertion-ordered sequence of entries and a map from author name to entry position,
    as the source's object does.
  - The loop is proved equal to a fold function, `Grouped`. Lemmas about `Grouped` state
    what the accumulator means, on the blog list alone:
    - there is one entry per author;
    - the entries are in order of each author's first blog;
    - each entry holds that author's count or like sum;
    - nothing is lost.
  - The two author statistics are methods. Each is specified by `IsLeader`:
    - the returned author occurs in the list with the returned total;
    - no author has more;
    - every author who appears earlier has strictly less.

    `LeaderUnique` shows that this pins down a single answer.
- `fixture.dfy` (module `Fixture`) states the results on the six sample records.

A record without an author is filed under the property name `"undefined"`, because
JavaScript converts the missing key to that string. Such records therefore share a group
with an author literally named "undefined". The result carries the `author` value of the
blog that created the group, which is absent in that case.

## Model

| member | source | states |
|---|---|---|
| ListHelper.Dummy | utils/list_helper.js:1-3 | the result is 1 for every list |
| ListHelper.TotalLikesConcat | utils/list_helper.js:5-7 | about `TotalLikes`, the left fold from 0 that models the reduce: the like total of a concatenation is the sum of the two totals; so the empty list totals 0 and appending a blog adds exactly its likes |
| ListHelper.TotalLikesBoundsEach | utils/list_helper.js:5-7 | no blog has more likes than the total over the list |
| ListHelper.KeepBest | utils/list_helper.js:15-23 | the reducer's result is the seed or a blog of the rest; it has at least the seed's likes and at least the likes of every blog of the rest |
| ListHelper.FavoriteBlog | utils/list_helper.js:9-25 | empty result exactly for the empty list; the only blog for a one-blog list; otherwise a blog of the list with maximal likes |
| ListHelper.FirstMaximalUnique | utils/list_helper.js:18 | at most one position holds the maximum with every earlier blog strictly below it |
| ListHelper.KeepBestFromPrefix | utils/list_helper.js:15-23 | resuming the strict-greater reduction from the first maximal blog of a prefix ends at the first maximal blog of the whole list |
| ListHelper.FavoriteBlogIsFirstMaximal | utils/list_helper.js:9-25 | on a non-empty list the favourite is the first blog whose likes equal the maximum, so ties go to the earliest blog |
| ListHelper.KeyOfMerges | utils/list_helper.js:30-31 | about `KeyOf` and `AuthorKey`, which turn a blog's author into the property name it is filed under (also at :54-55): two authors share a name exactly when they are equal, or when one is missing and the other is literally "undefined" |
| ListHelper.TallyShape | utils/list_helper.js:29-39 | about `Tally`, the reduce callback (also :53-63): one reduction step adds the weight to the author's existing entry in place, or appends a new entry at the end when the author has none |
| ListHelper.AddToAuthor | utils/list_helper.js:29-39 | the reduction callback: the new entries are one step of the fold and the name-to-position map stays exact |
| ListHelper.GroupByAuthor | utils/list_helper.js:28-40 | the loop over the blogs, starting from an empty object, yields exactly `Grouped`, the fold of `Tally` over the list that models the reduce (also :52-64) |
| ListHelper.GroupedByFirstAppearance | utils/list_helper.js:28-40 | every entry belongs to an author of the list and carries that author's first blog's `author`; entries follow first appearance, so there is one per author; every author has an entry; each entry holds the author's blog count or like sum |
| ListHelper.GroupedTotals | utils/list_helper.js:28-40 | for `blogsPerAuthor` and likewise `likesPerAuthor` at :52-64: per-author blog counts add up to the number of blogs and per-author like sums add up to the total likes |
| ListHelper.MaxTotal | utils/list_helper.js:47 | the value Math.max gives here and at :69: the maximum is at least every entry's total and equals some entry's total |
| ListHelper.FindByTotal | utils/list_helper.js:48 | the entry `find` picks here and at :70: the position found holds the target, and no earlier entry does; past the end when none does |
| ListHelper.LeaderBound | utils/list_helper.js:46-47 | no author of the list has a total above the maximum over the entries |
| ListHelper.EarlierAuthorsTrail | utils/list_helper.js:47-48 | every author whose first blog precedes the chosen author's first blog has a strictly smaller total |
| ListHelper.FoundIsLeader | utils/list_helper.js:45-48 | the entry found at the maximum names the leading author with that author's total |
| ListHelper.LeaderUnique | utils/list_helper.js:47-48 | the leading author and total are unique, so the result is fully determined by the list |
| ListHelper.MostProlificAuthor | utils/list_helper.js:27-49 | empty result exactly for the empty list; otherwise the leading author by number of blogs, with that number |
| ListHelper.MostLikedAuthor | utils/list_helper.js:51-72 | empty result exactly for the empty list; otherwise the leading author by total likes, with that total |
| Fixture.SampleKeysArePlain | utils/list_helper.js:75-124 | the three sample authors are ordinary property names |
| Fixture.SampleTotalLikes | utils/list_helper.js:75-124 | the sample blogs have 36 likes in all |
| Fixture.SampleFavorite | utils/list_helper.js:75-124 | the sample favourite is "Canonical string reduction" with 12 likes |
| Fixture.SampleProlificLeader | utils/list_helper.js:75-124 | Robert C. Martin leads the sample by number of blogs, with 3 |
| Fixture.SampleLikedLeader | utils/list_helper.js:75-124 | Edsger W. Dijkstra leads the sample by likes, with 17 |
| Fixture.SampleStatistics | utils/list_helper.js:136 | on the sample list the two author statistics are exactly Robert C. Martin with 3 blogs and Edsger W. Dijkstra with 17 likes |

## Left out

- The debugging output is not modelled. This covers the `console.log` calls inside the favourite reducer and the top-level print of the sample result. Output has no effect on any result.
- MostProlificAuthor: it requires every author name to be an ordinary property name (`PlainKeys`). Two kinds of name are excluded:
  - canonical array-index strings such as "0" or "42", which a JavaScript object enumerates first in numeric order and not in insertion order;
  - names a plain object inherits, such as "constructor", "toString" or "__proto__", which already read as truthy so that no entry is created.

  For such names the source's tie-breaking, or its result, follows JavaScript object internals that the model does not reproduce.
- MostLikedAuthor: it carries the same `PlainKeys` restriction, for the same reason.
- GroupByAuthor: it carries the same `PlainKeys` restriction, for the same reason.
- Blog: `likes` is a natural number. Fractional, negative, missing or non-numeric likes are not modelled. A missing value would give NaN in the sums and comparisons.
- Blog: authors are strings or absent. Other JavaScript values used as keys, such as numbers or objects, are not modelled.
- Blog: the sample records' `__v` field is dropped, since no operation reads it.
- Numbers are unbounded integers. The double-precision rounding of very large sums is not modelled.
- MaxTotal: it requires a non-empty list of entries. The source reaches the maximum only after returning early on an empty list, so the empty spread, which gives -Infinity, never occurs.
- The assignments to `maxBlogs` and `maxLikes` create undeclared globals in the source. The model keeps those values local, because nothing reads them elsewhere.
- The HTTP controllers, the database layer and the API test suites are not part of this model.
- Missing authors: the code files records without an author under the name "undefined". They therefore merge with an author literally called "undefined" and are not kept apart. The model follows the code.
