/** The six sample records kept at the bottom of utils/list_helper.js, and the
    statistics every operation yields on them. */
module Fixture {
  import opened ListHelper

  const Chan := "Michael Chan"
  const Dijkstra := "Edsger W. Dijkstra"
  const Martin := "Robert C. Martin"

  const SampleBlogs: seq<Blog> := [
    Blog("5a422a851b54a676234d17f7", "React patterns", Some(Chan),
         "https://reactpatterns.com/", 7),
    Blog("5a422aa71b54a676234d17f8", "Go To Statement Considered Harmful", Some(Dijkstra),
         "http://www.u.arizona.edu/~rubinson/copyright_violations/Go_To_Considered_Harmful.html", 5),
    Blog("5a422b3a1b54a676234d17f9", "Canonical string reduction", Some(Dijkstra),
         "http://www.cs.utexas.edu/~EWD/transcriptions/EWD08xx/EWD808.html", 12),
    Blog("5a422b891b54a676234d17fa", "First class tests", Some(Martin),
         "http://blog.cleancoder.com/uncle-bob/2017/05/05/TestDefinitions.htmll", 10),
    Blog("5a422ba71b54a676234d17fb", "TDD harms architecture", Some(Martin),
         "http://blog.cleancoder.com/uncle-bob/2017/03/03/TDD-Harms-Architecture.html", 0),
    Blog("5a422bc61b54a676234d17fc", "Type wars", Some(Martin),
         "http://blog.cleancoder.com/uncle-bob/2016/05/01/TypeWars.html", 2)
  ]

  /** The three authors' names are ordinary property names. */
  lemma {:induction false} AuthorNamesArePlain()
    ensures PlainKey(Chan) && PlainKey(Dijkstra) && PlainKey(Martin)
  {
    assert !IsDigit(Chan[0]) && !IsDigit(Dijkstra[0]) && !IsDigit(Martin[0]);
    assert Martin[0] == 'R' && Dijkstra[0] == 'E' && Chan[0] == 'M';
  }

  lemma {:induction false} SampleKeysArePlain()
    ensures PlainKeys(SampleBlogs)
  {
    AuthorNamesArePlain();
    forall b | b in SampleBlogs
      ensures PlainKey(AuthorKey(b))
    {
      assert AuthorKey(b) in {Chan, Dijkstra, Martin};
    }
  }

  /** The last blog of a prefix adds its likes to the prefix before it. */
  lemma {:induction false} TotalLikesPrefix(s: seq<Blog>, n: nat)
    requires 0 < n <= |s|
    ensures TotalLikes(s[..n]) == TotalLikes(s[..n - 1]) + s[n - 1].likes
  {
    assert s[..n][..n - 1] == s[..n - 1];
  }

  /** The last blog of a prefix adds its weight to its own author only. */
  lemma {:induction false} TotalByPrefix(m: Measure, s: seq<Blog>, k: string, n: nat)
    requires 0 < n <= |s|
    ensures TotalBy(m, s[..n], k) ==
      TotalBy(m, s[..n - 1], k) + (if AuthorKey(s[n - 1]) == k then Weight(m, s[n - 1]) else 0)
  {
    assert s[..n][..n - 1] == s[..n - 1];
  }

  lemma {:induction false} SampleTotalLikes()
    ensures TotalLikes(SampleBlogs) == 36
  {
    var s := SampleBlogs;
    assert s[..0] == [];
    TotalLikesPrefix(s, 1);
    TotalLikesPrefix(s, 2);
    TotalLikesPrefix(s, 3);
    TotalLikesPrefix(s, 4);
    TotalLikesPrefix(s, 5);
    TotalLikesPrefix(s, 6);
    assert s[..6] == s;
  }

  /** A key's total over the sample list, blog by blog. */
  function Share(m: Measure, b: Blog, k: string): nat {
    if AuthorKey(b) == k then Weight(m, b) else 0
  }

  lemma {:induction false} SampleTotalFor(m: Measure, k: string)
    ensures var s := SampleBlogs;
      TotalBy(m, s, k) ==
        Share(m, s[0], k) + Share(m, s[1], k) + Share(m, s[2], k) +
        Share(m, s[3], k) + Share(m, s[4], k) + Share(m, s[5], k)
  {
    var s := SampleBlogs;
    assert s[..0] == [];
    TotalByPrefix(m, s, k, 1);
    TotalByPrefix(m, s, k, 2);
    TotalByPrefix(m, s, k, 3);
    TotalByPrefix(m, s, k, 4);
    TotalByPrefix(m, s, k, 5);
    TotalByPrefix(m, s, k, 6);
    assert s[..6] == s;
  }

  /** Every author's total over the sample list under measure `m`. */
  lemma {:induction false} SampleTotals(m: Measure)
    ensures TotalBy(m, SampleBlogs, Chan) == Weight(m, SampleBlogs[0])
    ensures TotalBy(m, SampleBlogs, Dijkstra) == Weight(m, SampleBlogs[1]) + Weight(m, SampleBlogs[2])
    ensures TotalBy(m, SampleBlogs, Martin) ==
      Weight(m, SampleBlogs[3]) + Weight(m, SampleBlogs[4]) + Weight(m, SampleBlogs[5])
  {
    SampleTotalFor(m, Chan);
    SampleTotalFor(m, Dijkstra);
    SampleTotalFor(m, Martin);
  }

  /** The first blogs of the three authors are at 0, 1 and 3. */
  lemma {:induction false} SampleFirstIndices()
    ensures FirstIndex(SampleBlogs, Chan) == 0
    ensures FirstIndex(SampleBlogs, Dijkstra) == 1
    ensures FirstIndex(SampleBlogs, Martin) == 3
  {
    assert AuthorKey(SampleBlogs[0]) == Chan;
    assert AuthorKey(SampleBlogs[1]) == Dijkstra;
    assert AuthorKey(SampleBlogs[3]) == Martin;
  }

  /** No sample blog has more than 12 likes, and the two before it have fewer. */
  lemma {:induction false} SampleFirstMaximal()
    ensures IsFirstMaximal(SampleBlogs, 2)
  {
    var likes := [7, 5, 12, 10, 0, 2];
    assert forall j | 0 <= j < 6 :: SampleBlogs[j].likes == likes[j];
  }

  /** "Canonical string reduction" (12 likes) is the favourite. */
  lemma {:induction false} SampleFavorite()
    ensures FavoriteBlog(SampleBlogs) == Some(SampleBlogs[2])
  {
    FavoriteBlogIsFirstMaximal(SampleBlogs);
    var i :| IsFirstMaximal(SampleBlogs, i) && FavoriteBlog(SampleBlogs) == Some(SampleBlogs[i]);
    SampleFirstMaximal();
    FirstMaximalUnique(SampleBlogs, i, 2);
  }

  /** Robert C. Martin wrote the most blogs: three. */
  lemma {:induction false} SampleProlificLeader()
    ensures IsLeader(BlogCount, SampleBlogs, Some(Martin), 3)
  {
    SampleTotals(BlogCount);
    SampleFirstIndices();
  }

  /** Edsger W. Dijkstra's blogs have the most likes: seventeen. */
  lemma {:induction false} SampleLikedLeader()
    ensures IsLeader(LikeSum, SampleBlogs, Some(Dijkstra), 17)
  {
    SampleTotals(LikeSum);
    SampleFirstIndices();
  }

  /** Both per-author statistics on the sample list, as the source computes them. */
  method SampleStatistics() returns (prolific: Option<AuthorBlogs>, liked: Option<AuthorLikes>)
    ensures prolific == Some(AuthorBlogs(Some(Martin), 3))
    ensures liked == Some(AuthorLikes(Some(Dijkstra), 17))
  {
    SampleKeysArePlain();
    prolific := MostProlificAuthor(SampleBlogs);
    liked := MostLikedAuthor(SampleBlogs);
    SampleProlificLeader();
    SampleLikedLeader();
    LeaderUnique(BlogCount, SampleBlogs, prolific.value.author, prolific.value.blogs, Some(Martin), 3);
    LeaderUnique(LikeSum, SampleBlogs, liked.value.author, liked.value.likes, Some(Dijkstra), 17);
  }
}
