/** The admin panel (Controllers/AdminController.cs): the dashboard figures, the tail
    of a log file, and the three pages that list rows of database views. */
module Admin {
  import opened Wrappers
  import opened Text
  import opened Models
  import opened Http
  import opened Web
  import opened ApiClient

  // ---------------------------------------------------------------------------
  // Log tail

  /** The value an `int` expression takes in unchecked C# arithmetic: two's complement
      wrap-around to 32 bits. */
  function Wrap32(x: int): (r: Int32)
    ensures Int32Min <= x <= Int32Max ==> r == x
    ensures (r - x) % 0x1_0000_0000 == 0
  {
    var m := (x - Int32Min) % 0x1_0000_0000;
    m + Int32Min
  }

  /** The last `lines` lines of a file, all of them when it has fewer, none when `lines`
      is zero or negative. */
  function LastLines(allLines: seq<string>, lines: Int32): (r: seq<string>)
    ensures lines <= 0 ==> r == []
    ensures lines >= 0 ==> |r| == if lines < |allLines| then lines else |allLines|
    ensures |r| <= |allLines| && r == allLines[|allLines| - |r|..]
  {
    var keep := if lines <= 0 then 0 else if lines < |allLines| then lines else |allLines|;
    allLines[|allLines| - keep..]
  }

  /** `allLines.Skip(Math.Max(0, allLines.Count - lines))`, with the subtraction wrapping
      as it does in unchecked C#. */
  function LastLinesAsWritten(allLines: seq<string>, lines: Int32): (r: seq<string>)
    requires |allLines| <= Int32Max
    ensures |r| <= |allLines| && r == allLines[|allLines| - |r|..]
  {
    var skip := Wrap32(|allLines| - lines);
    var start := if skip < 0 then 0 else skip;
    if start >= |allLines| then [] else allLines[start..]
  }

  /** The code as written agrees with the intended tail except where the subtraction
      leaves the range of `int`. */
  lemma LastLinesAsWrittenAgrees(allLines: seq<string>, lines: Int32)
    requires |allLines| <= Int32Max
    requires |allLines| - lines <= Int32Max
    ensures LastLinesAsWritten(allLines, lines) == LastLines(allLines, lines)
  {
  }

  /** Asking for `int.MinValue` lines of a non-empty file: the subtraction wraps to a
      negative number, nothing is skipped, and the whole file comes back instead of no
      line at all. */
  lemma LastLinesMinValueShowsWholeFile(allLines: seq<string>)
    requires 1 <= |allLines| <= Int32Max
    ensures LastLinesAsWritten(allLines, Int32Min) == allLines
    ensures LastLines(allLines, Int32Min) == []
  {
    WrapAbove(|allLines| - Int32Min);
  }

  /** Just above `int.MaxValue`, wrapping subtracts 2^32. */
  lemma WrapAbove(x: int)
    requires Int32Max < x < Int32Max + 0x1_0000_0000
    ensures Wrap32(x) == x - 0x1_0000_0000
  {
    var q := x - Int32Min;
    assert 0x1_0000_0000 <= q < 2 * 0x1_0000_0000;
    assert q == 0x1_0000_0000 + (q - 0x1_0000_0000);
    assert q % 0x1_0000_0000 == q - 0x1_0000_0000;
  }

  /** `ReadLastLines`: read the file line by line, then keep the tail as the code does,
      with the unchecked subtraction (so `int.MinValue` shows the whole file; `LastLines`
      is the intended tail). `fileLines` are the lines `StreamReader.ReadLine` yields; a
      `List<string>` holds at most `int.MaxValue` of them. */
  method ReadLastLines(fileLines: seq<string>, lines: Int32) returns (result: seq<string>)
    requires |fileLines| <= Int32Max
    ensures result == LastLinesAsWritten(fileLines, lines)
    ensures |fileLines| - lines <= Int32Max ==> result == LastLines(fileLines, lines)
  {
    var allLines: seq<string> := [];
    var i := 0;
    while i < |fileLines|
      invariant 0 <= i <= |fileLines|
      invariant allLines == fileLines[..i]
    {
      allLines := allLines + [fileLines[i]];
      i := i + 1;
    }
    assert allLines == fileLines;
    var skip := Wrap32(|allLines| - lines);
    var start := if skip < 0 then 0 else skip;
    result := if start >= |allLines| then [] else allLines[start..];
    if |fileLines| - lines <= Int32Max {
      LastLinesAsWrittenAgrees(fileLines, lines);
    }
  }

  // ---------------------------------------------------------------------------
  // Dashboard totals

  function Sum(xs: seq<int>): int {
    if |xs| == 0 then 0 else Sum(xs[..|xs| - 1]) + xs[|xs| - 1]
  }

  /** LINQ's `Sum` over `int`: a left-to-right running total in checked arithmetic, so
      an intermediate total outside the range of `int` raises `OverflowException`
      (`None` here). */
  function CheckedSum(xs: seq<int>): (r: Option<Int32>)
    ensures r.Some? ==> r.value == Sum(xs)
  {
    if |xs| == 0 then Some(0)
    else
      var front := CheckedSum(xs[..|xs| - 1]);
      if front.None? then None
      else
        var total := front.value + xs[|xs| - 1];
        if Int32Min <= total <= Int32Max then Some(total) else None
  }

  lemma {:induction false} SumPrefixBelow(xs: seq<int>, k: nat)
    requires forall i :: 0 <= i < |xs| ==> xs[i] >= 0
    requires k <= |xs|
    ensures 0 <= Sum(xs[..k]) <= Sum(xs)
  {
    if k < |xs| {
      assert xs[..|xs| - 1][..k] == xs[..k];
      SumPrefixBelow(xs[..|xs| - 1], k);
    } else {
      assert xs[..k] == xs;
      if |xs| > 0 {
        assert xs[..|xs| - 1][..|xs| - 1] == xs[..|xs| - 1];
        SumPrefixBelow(xs[..|xs| - 1], |xs| - 1);
      }
    }
  }

  /** Over counts that are never negative, the checked sum fails exactly when the true
      total exceeds `int.MaxValue`. */
  lemma {:induction false} CheckedSumOfCounts(xs: seq<int>)
    requires forall i :: 0 <= i < |xs| ==> xs[i] >= 0
    ensures CheckedSum(xs).Some? <==> Sum(xs) <= Int32Max
  {
    if |xs| > 0 {
      var front := xs[..|xs| - 1];
      CheckedSumOfCounts(front);
      SumPrefixBelow(xs, |xs| - 1);
      assert xs[..|xs| - 1] == front;
    }
  }

  function LikeCounts(arts: seq<Artwork>): seq<int> {
    seq(|arts|, i requires 0 <= i < |arts| => arts[i].likeCount as int)
  }

  function CommentCounts(arts: seq<Artwork>): seq<int> {
    seq(|arts|, i requires 0 <= i < |arts| => arts[i].commentCount as int)
  }

  // ---------------------------------------------------------------------------
  // Recent uploads: `OrderByDescending(a => a.CreatedAt).Take(5)`

  /** Sorted from the newest to the oldest. */
  predicate NewestFirst(s: seq<Artwork>) {
    forall i, j :: 0 <= i < j < |s| ==> s[i].createdAt >= s[j].createdAt
  }

  /** The artworks of `s` created at `t`, in their order in `s`. */
  function CreatedAt(s: seq<Artwork>, t: int): seq<Artwork> {
    if |s| == 0 then [] else (if s[0].createdAt == t then [s[0]] else []) + CreatedAt(s[1..], t)
  }

  /** Places `x` into a newest-first list after every artwork at least as new, so that
      of two artworks with equal dates the one inserted earlier stays in front. */
  function Insert(x: Artwork, s: seq<Artwork>): seq<Artwork> {
    if |s| == 0 then [x]
    else if s[0].createdAt < x.createdAt then [x] + s
    else [s[0]] + Insert(x, s[1..])
  }

  /** The stable descending sort `OrderByDescending` performs, as insertion of each
      artwork in list order. */
  function SortNewestFirst(arts: seq<Artwork>): seq<Artwork> {
    if |arts| == 0 then [] else Insert(arts[|arts| - 1], SortNewestFirst(arts[..|arts| - 1]))
  }

  lemma {:induction false} InsertPermutes(x: Artwork, s: seq<Artwork>)
    ensures multiset(Insert(x, s)) == multiset(s) + multiset{x}
  {
    if |s| > 0 && s[0].createdAt >= x.createdAt {
      InsertPermutes(x, s[1..]);
      assert s == [s[0]] + s[1..];
    }
  }

  /** Inserting under a date bound stays under it. */
  lemma {:induction false} InsertBounded(x: Artwork, s: seq<Artwork>, bound: int)
    requires x.createdAt <= bound
    requires forall k :: 0 <= k < |s| ==> s[k].createdAt <= bound
    ensures forall k :: 0 <= k < |Insert(x, s)| ==> Insert(x, s)[k].createdAt <= bound
  {
    if |s| > 0 && s[0].createdAt >= x.createdAt {
      InsertBounded(x, s[1..], bound);
      var r := Insert(x, s);
      assert r == [s[0]] + Insert(x, s[1..]);
      forall k | 0 <= k < |r| ensures r[k].createdAt <= bound {
        if k > 0 {
          assert r[k] == Insert(x, s[1..])[k - 1];
        }
      }
    }
  }

  lemma {:induction false} InsertKeepsOrder(x: Artwork, s: seq<Artwork>)
    requires NewestFirst(s)
    ensures NewestFirst(Insert(x, s))
  {
    if |s| == 0 {
    } else if s[0].createdAt < x.createdAt {
      var r := [x] + s;
      forall i, j | 0 <= i < j < |r| ensures r[i].createdAt >= r[j].createdAt {
        assert r[j] == s[j - 1];
        if i > 0 {
          assert r[i] == s[i - 1];
        } else {
          assert s[0].createdAt >= s[j - 1].createdAt;
        }
      }
    } else {
      var tail := s[1..];
      var rest := Insert(x, tail);
      assert NewestFirst(tail) by {
        forall i, j | 0 <= i < j < |tail| ensures tail[i].createdAt >= tail[j].createdAt {
          assert tail[i] == s[i + 1] && tail[j] == s[j + 1];
        }
      }
      InsertKeepsOrder(x, tail);
      assert forall k :: 0 <= k < |tail| ==> tail[k].createdAt <= s[0].createdAt by {
        forall k | 0 <= k < |tail| ensures tail[k].createdAt <= s[0].createdAt {
          assert tail[k] == s[k + 1];
        }
      }
      InsertBounded(x, tail, s[0].createdAt);
      var r := [s[0]] + rest;
      assert Insert(x, s) == r;
      forall i, j | 0 <= i < j < |r| ensures r[i].createdAt >= r[j].createdAt {
        assert r[j] == rest[j - 1];
        if i > 0 {
          assert r[i] == rest[i - 1];
        }
      }
    }
  }

  /** The sort orders newest first. */
  lemma {:induction false} SortOrders(arts: seq<Artwork>)
    ensures NewestFirst(SortNewestFirst(arts))
  {
    if |arts| > 0 {
      SortOrders(arts[..|arts| - 1]);
      InsertKeepsOrder(arts[|arts| - 1], SortNewestFirst(arts[..|arts| - 1]));
    }
  }

  /** The sort is a permutation of its input. */
  lemma {:induction false} SortPermutes(arts: seq<Artwork>)
    ensures multiset(SortNewestFirst(arts)) == multiset(arts)
  {
    if |arts| > 0 {
      var front := arts[..|arts| - 1];
      SortPermutes(front);
      InsertPermutes(arts[|arts| - 1], SortNewestFirst(front));
      assert arts == front + [arts[|arts| - 1]];
    }
  }

  lemma {:induction false} CreatedAtAppend(a: seq<Artwork>, b: seq<Artwork>, t: int)
    ensures CreatedAt(a + b, t) == CreatedAt(a, t) + CreatedAt(b, t)
  {
    if |a| > 0 {
      assert (a + b)[1..] == a[1..] + b;
      CreatedAtAppend(a[1..], b, t);
    } else {
      assert a + b == b;
    }
  }

  lemma {:induction false} NoneAtOrAfter(s: seq<Artwork>, t: int)
    requires NewestFirst(s)
    requires |s| > 0 && s[0].createdAt < t
    ensures CreatedAt(s, t) == []
  {
    if |s| > 1 {
      NoneAtOrAfter(s[1..], t);
    }
  }

  lemma {:induction false} InsertStable(x: Artwork, s: seq<Artwork>, t: int)
    requires NewestFirst(s)
    ensures CreatedAt(Insert(x, s), t) == CreatedAt(s, t) + (if x.createdAt == t then [x] else [])
  {
    if |s| == 0 {
    } else if s[0].createdAt < x.createdAt {
      if x.createdAt == t {
        NoneAtOrAfter(s, t);
      }
      assert ([x] + s)[1..] == s;
    } else {
      InsertStable(x, s[1..], t);
      assert ([s[0]] + Insert(x, s[1..]))[1..] == Insert(x, s[1..]);
    }
  }

  /** The sort is stable: artworks with the same date keep their original order. */
  lemma {:induction false} SortStable(arts: seq<Artwork>, t: int)
    ensures CreatedAt(SortNewestFirst(arts), t) == CreatedAt(arts, t)
  {
    if |arts| > 0 {
      var front := arts[..|arts| - 1];
      var x := arts[|arts| - 1];
      var sortedFront := SortNewestFirst(front);
      assert SortNewestFirst(arts) == Insert(x, sortedFront);
      SortStable(front, t);
      SortOrders(front);
      InsertStable(x, sortedFront, t);
      assert arts == front + [x];
      CreatedAtAppend(front, [x], t);
      assert CreatedAt([x], t) == (if x.createdAt == t then [x] else []) by {
        assert [x][1..] == [];
      }
    }
  }

  const RecentCount: nat := 5

  /** `RecentArtworks`: the first five of the newest-first order. */
  function Recent(arts: seq<Artwork>): seq<Artwork> {
    var sorted := SortNewestFirst(arts);
    sorted[..if |sorted| < RecentCount then |sorted| else RecentCount]
  }

  /** Cutting a newest-first list leaves a newest-first front no part of which is older
      than any part of the back. */
  lemma SplitNewestFirst(sorted: seq<Artwork>, n: nat)
    requires NewestFirst(sorted) && n <= |sorted|
    ensures NewestFirst(sorted[..n])
    ensures forall i, j :: 0 <= i < n && 0 <= j < |sorted| - n ==> sorted[..n][i].createdAt >= sorted[n..][j].createdAt
  {
    forall i, j | 0 <= i < n && 0 <= j < |sorted| - n ensures sorted[..n][i].createdAt >= sorted[n..][j].createdAt {
      assert sorted[..n][i] == sorted[i] && sorted[n..][j] == sorted[n + j];
    }
  }

  /** The recent list holds at most five artworks, all from the input, newest first, and
      none of the artworks left out is newer than any of those kept. */
  lemma RecentAreLatest(arts: seq<Artwork>)
    ensures var recent := Recent(arts);
      && |recent| == (if |arts| < RecentCount then |arts| else RecentCount)
      && NewestFirst(recent)
      && multiset(recent) <= multiset(arts)
      && exists rest: seq<Artwork> ::
           && multiset(recent) + multiset(rest) == multiset(arts)
           && forall i, j :: 0 <= i < |recent| && 0 <= j < |rest| ==> recent[i].createdAt >= rest[j].createdAt
  {
    var sorted := SortNewestFirst(arts);
    var n := if |sorted| < RecentCount then |sorted| else RecentCount;
    var recent := sorted[..n];
    var rest := sorted[n..];
    SortOrders(arts);
    SortPermutes(arts);
    SplitNewestFirst(sorted, n);
    assert |sorted| == |arts| by {
      assert |multiset(sorted)| == |multiset(arts)|;
    }
    SplitPermutes(sorted, n);
    assert multiset(recent) + multiset(rest) == multiset(arts);
  }

  lemma SplitPermutes(s: seq<Artwork>, n: nat)
    requires n <= |s|
    ensures multiset(s[..n]) + multiset(s[n..]) == multiset(s)
  {
    assert s == s[..n] + s[n..];
  }

  // ---------------------------------------------------------------------------
  // The pages

  const ApiWorking := "Çalışıyor"
  const ApiBroken := "Hata"
  const ApiUrl := "http://localhost:8080/api"
  const SessionExpiredMessage := "Oturum süresi doldu. Lütfen tekrar giriş yapın."

  /** What `Index` puts in ViewBag for the artworks the gateway returned and the number
      of `*.log` files found: the full set of figures when both sums fit an `int`, the
      zeroed figures with "Hata" when one of them overflows. */
  function DashboardBag(bag: map<string, ViewValue>, arts: seq<Artwork>, logFiles: nat): map<string, ViewValue> {
    var likes := CheckedSum(LikeCounts(arts));
    var comments := CheckedSum(CommentCounts(arts));
    if likes.Some? && comments.Some? then
      bag["TotalArtworks" := Number(|arts|)]["TotalLikes" := Number(likes.value)]
         ["TotalComments" := Number(comments.value)]["LogFileCount" := Number(logFiles)]
         ["RecentArtworks" := ArtworkList(Recent(arts))]["ApiStatus" := Message(ApiWorking)]
         ["ApiUrl" := Message(ApiUrl)]
    else
      bag["TotalArtworks" := Number(0)]["TotalLikes" := Number(0)]["TotalComments" := Number(0)]
         ["LogFileCount" := Number(0)]["ApiStatus" := Message(ApiBroken)]
  }

  /** The dashboard figures are the count of artworks and the true sums of their like
      and comment counts whenever every count is non-negative and the sums fit an `int`;
      otherwise all four counters are 0 and the status reads "Hata". */
  lemma DashboardFigures(bag: map<string, ViewValue>, arts: seq<Artwork>, logFiles: nat)
    requires forall i :: 0 <= i < |arts| ==> arts[i].likeCount >= 0 && arts[i].commentCount >= 0
    ensures var out := DashboardBag(bag, arts, logFiles);
      if Sum(LikeCounts(arts)) <= Int32Max && Sum(CommentCounts(arts)) <= Int32Max then
        && out["TotalArtworks"] == Number(|arts|)
        && out["TotalLikes"] == Number(Sum(LikeCounts(arts)))
        && out["TotalComments"] == Number(Sum(CommentCounts(arts)))
        && out["LogFileCount"] == Number(logFiles)
        && out["ApiStatus"] == Message(ApiWorking)
      else
        && out["TotalArtworks"] == Number(0) && out["TotalLikes"] == Number(0)
        && out["TotalComments"] == Number(0) && out["LogFileCount"] == Number(0)
        && out["ApiStatus"] == Message(ApiBroken)
  {
    CheckedSumOfCounts(LikeCounts(arts));
    CheckedSumOfCounts(CommentCounts(arts));
  }

  /** `Index`. `logFiles` is the number of `*.log` files under the log directory (0 when
      it does not exist). */
  method Index(ctx: RequestContext, api: SpringApiClient, reply: Exchange, decoded: Json<seq<Artwork>>, logFiles: nat)
    returns (result: ActionResult)
    modifies ctx`viewBag, api
    ensures result == ViewResult(NoModel)
    ensures ctx.viewBag == DashboardBag(old(ctx.viewBag), ListOrEmpty(reply, decoded), logFiles)
    ensures api.authorization == if NullOrWhiteSpace(ctx.Token()) then old(api.authorization) else Some(Bearer(ctx.Token().value))
    ensures api.sent == old(api.sent) + [Request(Get, "arts/public", api.authorization, NoBody)]
  {
    var token := ctx.Token();
    var arts := api.GetAllArts(token, reply, decoded);
    var likes := CheckedSum(LikeCounts(arts));
    var comments := CheckedSum(CommentCounts(arts));
    if likes.Some? && comments.Some? {
      ctx.viewBag := ctx.viewBag["TotalArtworks" := Number(|arts|)]["TotalLikes" := Number(likes.value)]
                       ["TotalComments" := Number(comments.value)]["LogFileCount" := Number(logFiles)];
      ctx.viewBag := ctx.viewBag["RecentArtworks" := ArtworkList(Recent(arts))];
      ctx.viewBag := ctx.viewBag["ApiStatus" := Message(ApiWorking)]["ApiUrl" := Message(ApiUrl)];
    } else {
      ctx.viewBag := ctx.viewBag["TotalArtworks" := Number(0)]["TotalLikes" := Number(0)]
                       ["TotalComments" := Number(0)]["LogFileCount" := Number(0)]["ApiStatus" := Message(ApiBroken)];
    }
    result := ViewResult(NoModel);
  }

  /** `DatabaseViews`: with no token the user is sent to log in and the gateway is not
      called; otherwise the three views are fetched and shown. */
  method DatabaseViews(ctx: RequestContext, api: SpringApiClient,
                       statsReply: Exchange, stats: Json<seq<ViewRow>>,
                       usersReply: Exchange, users: Json<seq<ViewRow>>,
                       uploadsReply: Exchange, uploads: Json<seq<ViewRow>>)
    returns (result: ActionResult)
    modifies ctx`tempData, api
    ensures NullOrEmpty(old(ctx.Token())) ==>
              && result == LoginRedirect
              && ctx.tempData == old(ctx.tempData)[ErrorMessageKey := SessionExpiredMessage]
              && api.sent == old(api.sent) && api.authorization == old(api.authorization)
    ensures !NullOrEmpty(old(ctx.Token())) ==>
              var header := Some(Bearer(old(ctx.Token()).value));
              && result == ViewResult(DashboardItem(AdminDashboard(
                   [], ListOrEmpty(statsReply, stats), ListOrEmpty(usersReply, users),
                   ListOrEmpty(uploadsReply, uploads), [])))
              && ctx.tempData == old(ctx.tempData)
              && api.sent == old(api.sent) + [Request(Get, "/api/admin/views/" + "vw_categorystats", header, NoBody),
                                              Request(Get, "/api/admin/views/" + "vw_activeusers", header, NoBody),
                                              Request(Get, "/api/admin/views/" + "vw_recentuploads", header, NoBody)]
              && api.authorization == header
  {
    var token := ctx.Token();
    if NullOrEmpty(token) {
      ctx.tempData := ctx.tempData[ErrorMessageKey := SessionExpiredMessage];
      return LoginRedirect;
    }
    var categoryStats := api.GetDatabaseView("vw_categorystats", token.value, statsReply, stats);
    var activeUsers := api.GetDatabaseView("vw_activeusers", token.value, usersReply, users);
    var recentUploads := api.GetDatabaseView("vw_recentuploads", token.value, uploadsReply, uploads);
    result := ViewResult(DashboardItem(AdminDashboard([], categoryStats, activeUsers, recentUploads, [])));
  }

  /** `DetailedArts`: the rows of `vw_detailedartlist`, behind the token gate. */
  method DetailedArts(ctx: RequestContext, api: SpringApiClient, reply: Exchange, decoded: Json<seq<DetailedArt>>)
    returns (result: ActionResult)
    modifies api
    ensures NullOrEmpty(ctx.Token()) ==>
              result == LoginRedirect && api.sent == old(api.sent) && api.authorization == old(api.authorization)
    ensures !NullOrEmpty(ctx.Token()) ==>
              && result == ViewResult(DetailedArtList(ListOrEmpty(reply, decoded)))
              && api.sent == old(api.sent) + [Request(Get, "/api/admin/views/" + "vw_detailedartlist", Some(Bearer(ctx.Token().value)), NoBody)]
              && api.authorization == Some(Bearer(ctx.Token().value))
  {
    var token := ctx.Token();
    if NullOrEmpty(token) {
      return LoginRedirect;
    }
    var arts := api.GetDatabaseView("vw_detailedartlist", token.value, reply, decoded);
    result := ViewResult(DetailedArtList(arts));
  }

  /** `SystemLogs`: the rows of `vw_logsummary`, behind the token gate. */
  method SystemLogs(ctx: RequestContext, api: SpringApiClient, reply: Exchange, decoded: Json<seq<ViewRow>>)
    returns (result: ActionResult)
    modifies api
    ensures NullOrEmpty(ctx.Token()) ==>
              result == LoginRedirect && api.sent == old(api.sent) && api.authorization == old(api.authorization)
    ensures !NullOrEmpty(ctx.Token()) ==>
              && result == ViewResult(RowList(ListOrEmpty(reply, decoded)))
              && api.sent == old(api.sent) + [Request(Get, "/api/admin/views/" + "vw_logsummary", Some(Bearer(ctx.Token().value)), NoBody)]
              && api.authorization == Some(Bearer(ctx.Token().value))
  {
    var token := ctx.Token();
    if NullOrEmpty(token) {
      return LoginRedirect;
    }
    var logs := api.GetDatabaseView("vw_logsummary", token.value, reply, decoded);
    result := ViewResult(RowList(logs));
  }
}
