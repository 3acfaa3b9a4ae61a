/** The administrator's leaderboard: every graded result per user, summarised one entry per
    user and ranked by average percentage, best first. */
module Leaderboard {
  import opened JavaLang
  import opened Seqs
  import opened QuizModel

  // ---------------------------------------------------------------- per-result scores

  /** `QuizResult.percentage`: correct answers over questions, in percent, and 0 when the
      quiz had no questions (read as an exact real, without `double` rounding). */
  function Percentage(r: QuizResult): real
  {
    if r.totalQuestions > 0 then (r.correctAnswers * 100) as real / r.totalQuestions as real else 0.0
  }

  /** A sensible result (no more correct answers than questions) scores 0..100 percent. */
  lemma PercentageBounds(r: QuizResult)
    requires 0 <= r.correctAnswers <= r.totalQuestions
    ensures 0.0 <= Percentage(r) <= 100.0
    ensures Percentage(r) == 100.0 <==> r.totalQuestions > 0 && r.correctAnswers == r.totalQuestions
  {
    if r.totalQuestions > 0 {
      var q := r.totalQuestions as real;
      var c := r.correctAnswers as real;
      assert (r.correctAnswers * 100) as real == c * 100.0;
      assert c * 100.0 <= q * 100.0;
    }
  }

  function SumPercent(rs: seq<QuizResult>): real
  {
    if rs == [] then 0.0 else SumPercent(rs[..|rs| - 1]) + Percentage(rs[|rs| - 1])
  }

  /** `mapToDouble(getPercentage).average().orElse(0.0)`. */
  function Average(rs: seq<QuizResult>): real
  {
    if rs == [] then 0.0 else SumPercent(rs) / |rs| as real
  }

  /** The sum of `earnedPoints` over whole numbers. */
  function SumEarned(rs: seq<QuizResult>): int
  {
    if rs == [] then 0 else SumEarned(rs[..|rs| - 1]) + rs[|rs| - 1].earnedPoints
  }

  /** `mapToInt(getEarnedPoints).sum()`: an `int` sum, wrapping at every step. */
  function TotalScore(rs: seq<QuizResult>): int
  {
    if rs == [] then 0 else Wrap32(TotalScore(rs[..|rs| - 1]) + rs[|rs| - 1].earnedPoints)
  }

  /** Two `int` values that agree modulo 2^32 are the same value. */
  lemma Int32Congruent(x: int, y: int)
    requires IsInt32(x) && IsInt32(y) && (x - y) % 0x1_0000_0000 == 0
    ensures x == y
  {
  }

  /** Multiples of 2^32 stay multiples under sums and differences. */
  lemma MultiplesCombine(d1: int, d2: int, d3: int)
    requires d1 % 0x1_0000_0000 == 0 && d2 % 0x1_0000_0000 == 0 && d3 % 0x1_0000_0000 == 0
    ensures (d1 - d2 - d3) % 0x1_0000_0000 == 0
  {
    var k1, k2, k3 := d1 / 0x1_0000_0000, d2 / 0x1_0000_0000, d3 / 0x1_0000_0000;
    assert d1 - d2 - d3 == (k1 - k2 - k3) * 0x1_0000_0000;
  }

  /** Wrapping at every step lands where wrapping once at the end does. */
  lemma WrapStep(a: int, b: int)
    ensures Wrap32(Wrap32(a) + b) == Wrap32(a + b)
  {
    var w := Wrap32(a);
    var u, v := Wrap32(w + b), Wrap32(a + b);
    MultiplesCombine(a + b - v, a - w, w + b - u);
    assert u - v == (a + b - v) - (a - w) - (w + b - u);
    Int32Congruent(u, v);
  }

  /** The total score is the true sum of the earned points, wrapped to 32 bits. */
  lemma {:induction false} TotalScoreWraps(rs: seq<QuizResult>)
    ensures TotalScore(rs) == Wrap32(SumEarned(rs))
    ensures IsInt32(SumEarned(rs)) ==> TotalScore(rs) == SumEarned(rs)
  {
    if rs != [] {
      var init := rs[..|rs| - 1];
      TotalScoreWraps(init);
      WrapStep(SumEarned(init), rs[|rs| - 1].earnedPoints);
    }
  }

  /** With every result sensible, the average lies in 0..100. */
  lemma {:induction false} AverageBounds(rs: seq<QuizResult>)
    requires forall i :: 0 <= i < |rs| ==> 0 <= rs[i].correctAnswers <= rs[i].totalQuestions
    ensures 0.0 <= SumPercent(rs) <= 100.0 * |rs| as real
    ensures 0.0 <= Average(rs) <= 100.0
  {
    if rs != [] {
      AverageBounds(rs[..|rs| - 1]);
      PercentageBounds(rs[|rs| - 1]);
      DivideBound(SumPercent(rs), |rs| as real);
    }
  }

  lemma DivideBound(s: real, n: real)
    requires n >= 1.0 && 0.0 <= s <= 100.0 * n
    ensures 0.0 <= s / n <= 100.0
  {
  }

  // ---------------------------------------------------------------- entries

  /** `LeaderboardEntry`: a user with the average, the number and the total points of their
      results. */
  datatype Entry = Entry(username: string, averageScore: real, totalQuizzes: int, totalScore: int)

  function EntryOf(username: string, rs: seq<QuizResult>): Entry
  {
    Entry(username, Average(rs), |rs|, TotalScore(rs))
  }

  /** The entries of the users of `order`, in that order. */
  function EntriesFor(results: map<string, seq<QuizResult>>, order: seq<string>): (es: seq<Entry>)
    requires forall u :: u in order ==> u in results
    ensures |es| == |order|
    ensures forall i :: 0 <= i < |order| ==> es[i] == EntryOf(order[i], results[order[i]])
  {
    if order == [] then []
    else EntriesFor(results, order[..|order| - 1]) + [EntryOf(order[|order| - 1], results[order[|order| - 1]])]
  }

  /** Best average first. */
  predicate SortedByAverage(es: seq<Entry>)
  {
    forall i, j :: 0 <= i < j < |es| ==> es[i].averageScore >= es[j].averageScore
  }

  /** Places `e` before the first entry whose average it matches or beats. */
  function Insert(e: Entry, es: seq<Entry>): (r: seq<Entry>)
    ensures multiset(r) == multiset(es) + multiset{e}
    ensures |r| == |es| + 1
  {
    if es == [] || e.averageScore >= es[0].averageScore then [e] + es
    else
      assert es == [es[0]] + es[1..];
      [es[0]] + Insert(e, es[1..])
  }

  /** No entry of `es` has a better average than `b`. */
  ghost predicate AllAtMost(es: seq<Entry>, b: real)
  {
    forall k :: 0 <= k < |es| ==> es[k].averageScore <= b
  }

  /** An entry at least as good as everything in a sorted board can head it. */
  lemma ConsSorted(x: Entry, es: seq<Entry>)
    requires SortedByAverage(es) && AllAtMost(es, x.averageScore)
    ensures SortedByAverage([x] + es)
  {
    var r := [x] + es;
    forall i, j | 0 <= i < j < |r| ensures r[i].averageScore >= r[j].averageScore {
      assert r[j] == es[j - 1];
      if i > 0 {
        assert r[i] == es[i - 1];
      }
    }
  }

  /** Inserting an entry no better than `b` into entries no better than `b` adds none
      better. */
  lemma InsertAtMost(e: Entry, es: seq<Entry>, b: real)
    requires e.averageScore <= b && AllAtMost(es, b)
    ensures AllAtMost(Insert(e, es), b)
  {
    var r := Insert(e, es);
    forall k | 0 <= k < |r| ensures r[k].averageScore <= b {
      assert r[k] in multiset(r);
      if r[k] != e {
        assert r[k] in multiset(es);
        var m :| 0 <= m < |es| && es[m] == r[k];
      }
    }
  }

  /** Inserting into a sorted board keeps it sorted. */
  lemma {:induction false} InsertSorted(e: Entry, es: seq<Entry>)
    requires SortedByAverage(es)
    ensures SortedByAverage(Insert(e, es))
  {
    if es == [] || e.averageScore >= es[0].averageScore {
      assert AllAtMost(es, e.averageScore) by {
        if es != [] {
          assert forall k :: 0 <= k < |es| ==> es[0].averageScore >= es[k].averageScore;
        }
      }
      ConsSorted(e, es);
    } else {
      var tail := es[1..];
      InsertSorted(e, tail);
      assert AllAtMost(tail, es[0].averageScore) by {
        assert forall k :: 0 <= k < |tail| ==> tail[k] == es[k + 1];
      }
      InsertAtMost(e, tail, es[0].averageScore);
      ConsSorted(es[0], Insert(e, tail));
    }
  }

  /** `sorted(comparingDouble(getAverageScore).reversed())`: a stable sort, best average
      first. */
  function SortByAverage(es: seq<Entry>): (r: seq<Entry>)
    ensures SortedByAverage(r)
    ensures multiset(r) == multiset(es)
    ensures |r| == |es|
  {
    if es == [] then []
    else
      assert es == [es[0]] + es[1..];
      var sorted := SortByAverage(es[1..]);
      InsertSorted(es[0], sorted);
      Insert(es[0], sorted)
  }

  /** A leaderboard of `results`: one entry per user, in some order of the users, then
      sorted by average. */
  ghost predicate IsBoardOf(board: seq<Entry>, results: map<string, seq<QuizResult>>)
  {
    exists order :: IsOrderingOf(order, results.Keys) && board == SortByAverage(EntriesFor(results, order))
  }

  /** A leaderboard has as many entries as there are users with results. */
  lemma BoardSize(board: seq<Entry>, results: map<string, seq<QuizResult>>)
    requires IsBoardOf(board, results)
    ensures |board| == |results|
  {
    var order :| IsOrderingOf(order, results.Keys) && board == SortByAverage(EntriesFor(results, order));
    OrderingLength(order, results.Keys);
    assert |results.Keys| == |results|;
  }

  /** Every entry of a leaderboard is the summary of a user with results. */
  lemma BoardMembers(board: seq<Entry>, results: map<string, seq<QuizResult>>)
    requires IsBoardOf(board, results)
    ensures forall i :: 0 <= i < |board| ==>
      (board[i].username in results && board[i] == EntryOf(board[i].username, results[board[i].username]))
  {
    var order :| IsOrderingOf(order, results.Keys) && board == SortByAverage(EntriesFor(results, order));
    forall i | 0 <= i < |board|
      ensures board[i].username in results && board[i] == EntryOf(board[i].username, results[board[i].username])
    {
      assert board[i] in multiset(board);
      EntryOfMember(results, order, board[i]);
    }
  }

  /** Every entry built for `order` summarises one of its users. */
  lemma EntryOfMember(results: map<string, seq<QuizResult>>, order: seq<string>, x: Entry)
    requires forall u :: u in order ==> u in results
    requires x in multiset(EntriesFor(results, order))
    ensures x.username in results && x == EntryOf(x.username, results[x.username])
  {
    var es := EntriesFor(results, order);
    var k :| 0 <= k < |es| && es[k] == x;
    assert x == EntryOf(order[k], results[order[k]]);
  }

  /** Every user with results has an entry on the leaderboard. */
  lemma BoardCoversUsers(board: seq<Entry>, results: map<string, seq<QuizResult>>)
    requires IsBoardOf(board, results)
    ensures forall u :: u in results ==> exists i :: 0 <= i < |board| && board[i].username == u
  {
    var order :| IsOrderingOf(order, results.Keys) && board == SortByAverage(EntriesFor(results, order));
    var es := EntriesFor(results, order);
    forall u | u in results ensures exists i :: 0 <= i < |board| && board[i].username == u {
      var k :| 0 <= k < |order| && order[k] == u;
      assert es[k] in multiset(board);
      var i :| 0 <= i < |board| && board[i] == es[k];
    }
  }

  /** No user appears twice on a leaderboard. */
  lemma BoardDistinct(board: seq<Entry>, results: map<string, seq<QuizResult>>)
    requires IsBoardOf(board, results)
    ensures DistinctNames(board)
  {
    var order :| IsOrderingOf(order, results.Keys) && board == SortByAverage(EntriesFor(results, order));
    var es := EntriesFor(results, order);
    assert DistinctNames(es) by {
      forall i, j | 0 <= i < j < |es| ensures es[i].username != es[j].username {
        assert order[i] != order[j];
      }
    }
    PermutationDistinct(es, board);
  }

  predicate DistinctNames(es: seq<Entry>)
  {
    forall i, j :: 0 <= i < j < |es| ==> es[i].username != es[j].username
  }

  /** With distinct names, each entry occurs once. */
  lemma OnceIn(es: seq<Entry>, k: int)
    requires DistinctNames(es) && 0 <= k < |es|
    ensures multiset(es)[es[k]] == 1
  {
    var e := es[k];
    assert es == es[..k] + [e] + es[k + 1..];
    assert e !in multiset(es[..k]) by {
      forall i | 0 <= i < k ensures es[i] != e { }
    }
    assert e !in multiset(es[k + 1..]) by {
      forall i | k + 1 <= i < |es| ensures es[i] != e { }
    }
    assert multiset(es) == multiset(es[..k]) + multiset{e} + multiset(es[k + 1..]);
  }

  /** An entry at two places occurs at least twice. */
  lemma TwiceIn(es: seq<Entry>, i: int, j: int)
    requires 0 <= i < j < |es| && es[i] == es[j]
    ensures multiset(es)[es[i]] >= 2
  {
    assert es == es[..j] + es[j..];
    assert multiset(es) == multiset(es[..j]) + multiset(es[j..]);
    assert es[i] in multiset(es[..j]);
    assert es[j] in multiset(es[j..]);
  }

  /** Reordering keeps names distinct. */
  lemma PermutationDistinct(a: seq<Entry>, b: seq<Entry>)
    requires multiset(a) == multiset(b) && DistinctNames(a)
    ensures DistinctNames(b)
  {
    forall i, j | 0 <= i < j < |b| ensures b[i].username != b[j].username {
      if b[i].username == b[j].username {
        assert b[i] in multiset(a);
        assert b[j] in multiset(a);
        var k :| 0 <= k < |a| && a[k] == b[i];
        var l :| 0 <= l < |a| && a[l] == b[j];
        assert k == l;
        TwiceIn(b, i, j);
        OnceIn(a, k);
        assert false;
      }
    }
  }

  // ---------------------------------------------------------------- formatting

  /** `String.format("%-Ns", s)`: `s` left-aligned, padded with spaces to width `w`. */
  function PadRight(s: string, w: int): (r: string)
    ensures |r| == if |s| >= w then |s| else w
    ensures forall i :: 0 <= i < |r| ==> r[i] == if i < |s| then s[i] else ' '
  {
    if |s| >= w then s else s + seq(w - |s|, _ => ' ')
  }

  /** Padding adds no line break. */
  lemma PadRightOneLine(s: string, w: int)
    requires '\n' !in s
    ensures '\n' !in PadRight(s, w)
  {
    var r := PadRight(s, w);
    forall i | 0 <= i < |r| ensures r[i] != '\n' {
      if i < |s| {
        assert r[i] == s[i];
      }
    }
  }

  /** A line of output: the text and its line break. */
  function Line(text: string): string
  {
    text + "\n"
  }

  /** The column header, `"%-5s %-20s %-10s %-10s %-10s"` over the five titles. */
  function Header(): string
  {
    PadRight("Rank", 5) + " " + PadRight("Username", 20) + " " + PadRight("Avg Score", 10) + " "
    + PadRight("Quizzes", 10) + " " + PadRight("Total Pts", 10)
  }

  /** `"─".repeat(60)`. */
  function Rule(): string
  {
    seq(60, _ => '─')
  }

  /** The title, a blank line, the column header and the rule. */
  function Banner(): string
  {
    Line("=== LEADERBOARD ===") + Line("") + Line(Header()) + Line(Rule())
  }

  /** One row, `"%-5d %-20s %-10.1f%% %-10d %-10d\n"`; `fmt` renders the average with one
      decimal. */
  function Row(rank: int, e: Entry, fmt: real -> string): string
  {
    Line(RowText(rank, e, fmt))
  }

  function RowText(rank: int, e: Entry, fmt: real -> string): string
  {
    PadRight(IntToString(rank), 5) + " " + PadRight(e.username, 20) + " " + PadRight(fmt(e.averageScore), 10) + "% "
    + PadRight(IntToString(e.totalQuizzes), 10) + " " + PadRight(IntToString(e.totalScore), 10)
  }

  /** The row layout of the board, with the average rendered by `fmt`. */
  function RowFormat(fmt: real -> string): (int, Entry) -> string
  {
    (rank, e) => Row(rank, e, fmt)
  }

  /** The rows of `es`, each laid out by `render`, ranked from `first`. */
  function Rows(es: seq<Entry>, first: int, render: (int, Entry) -> string): string
  {
    if es == [] then "" else Rows(es[..|es| - 1], first, render) + render(first + |es| - 1, es[|es| - 1])
  }

  /** How many times `c` occurs in `s`. */
  function Count(s: string, c: char): nat
  {
    if s == [] then 0 else Count(s[..|s| - 1], c) + (if s[|s| - 1] == c then 1 else 0)
  }

  lemma {:induction false} CountConcat(s: string, t: string, c: char)
    ensures Count(s + t, c) == Count(s, c) + Count(t, c)
  {
    if t == [] {
      assert s + t == s;
    } else {
      assert (s + t)[..|s + t| - 1] == s + t[..|t| - 1];
      CountConcat(s, t[..|t| - 1], c);
    }
  }

  lemma {:induction false} CountAbsent(s: string, c: char)
    requires c !in s
    ensures Count(s, c) == 0
  {
    if s != [] {
      CountAbsent(s[..|s| - 1], c);
    }
  }

  /** Decimal text holds no line break. */
  lemma IntTextHasNoNewline(n: int)
    ensures '\n' !in IntToString(n)
  {
    var s := IntToString(n);
    var digits := if n < 0 then NatToString(-n) else NatToString(n);
    assert s == (if n < 0 then "-" else "") + digits;
  }

  /** A text without a line break makes exactly one line. */
  lemma LineCount(text: string)
    requires '\n' !in text
    ensures Count(Line(text), '\n') == 1
  {
    CountAbsent(text, '\n');
    CountConcat(text, "\n", '\n');
    assert Count("\n", '\n') == Count([], '\n') + 1;
  }

  /** A row is one line: with a one-line name and average text, it holds exactly one line
      break, its last char. */
  lemma RowIsOneLine(rank: int, e: Entry, fmt: real -> string)
    requires '\n' !in e.username && '\n' !in fmt(e.averageScore)
    ensures Count(Row(rank, e, fmt), '\n') == 1
  {
    IntTextHasNoNewline(rank);
    IntTextHasNoNewline(e.totalQuizzes);
    IntTextHasNoNewline(e.totalScore);
    PadRightOneLine(IntToString(rank), 5);
    PadRightOneLine(e.username, 20);
    PadRightOneLine(fmt(e.averageScore), 10);
    PadRightOneLine(IntToString(e.totalQuizzes), 10);
    PadRightOneLine(IntToString(e.totalScore), 10);
    LineCount(RowText(rank, e, fmt));
  }

  /** Rows of one line each make one line per entry. */
  lemma {:induction false} RowsLineCount(es: seq<Entry>, first: int, render: (int, Entry) -> string)
    requires forall i :: 0 <= i < |es| ==> Count(render(first + i, es[i]), '\n') == 1
    ensures Count(Rows(es, first, render), '\n') == |es|
  {
    if es != [] {
      RowsLineCount(es[..|es| - 1], first, render);
      CountConcat(Rows(es[..|es| - 1], first, render), render(first + |es| - 1, es[|es| - 1]), '\n');
    }
  }

  /** The banner takes four lines. */
  lemma BannerLineCount()
    ensures Count(Banner(), '\n') == 4
  {
    PadRightOneLine("Rank", 5);
    PadRightOneLine("Username", 20);
    PadRightOneLine("Avg Score", 10);
    PadRightOneLine("Quizzes", 10);
    PadRightOneLine("Total Pts", 10);
    LineCount("=== LEADERBOARD ===");
    LineCount("");
    LineCount(Header());
    LineCount(Rule());
    var a, b, c, d := Line("=== LEADERBOARD ==="), Line(""), Line(Header()), Line(Rule());
    CountConcat(a, b, '\n');
    CountConcat(a + b, c, '\n');
    CountConcat(a + b + c, d, '\n');
  }

  lemma FormattedRowsAreLines(board: seq<Entry>, fmt: real -> string)
    requires forall i :: 0 <= i < |board| ==> '\n' !in board[i].username && '\n' !in fmt(board[i].averageScore)
    ensures forall i :: 0 <= i < |board| ==> Count(RowFormat(fmt)(1 + i, board[i]), '\n') == 1
  {
    forall i | 0 <= i < |board| ensures Count(RowFormat(fmt)(1 + i, board[i]), '\n') == 1 {
      RowIsOneLine(1 + i, board[i], fmt);
    }
  }

  /** A one-line name per user and one-line average texts give a printed board of four
      banner lines plus one line per user. */
  lemma FormattedLineCount(board: seq<Entry>, fmt: real -> string)
    requires forall i :: 0 <= i < |board| ==> '\n' !in board[i].username && '\n' !in fmt(board[i].averageScore)
    ensures Count(Banner() + Rows(board, 1, RowFormat(fmt)), '\n') == 4 + |board|
  {
    FormattedRowsAreLines(board, fmt);
    BannerLineCount();
    RowsLineCount(board, 1, RowFormat(fmt));
    CountConcat(Banner(), Rows(board, 1, RowFormat(fmt)), '\n');
  }

  // ---------------------------------------------------------------- the manager

  /** `getOrDefault(username, new ArrayList<>())`. */
  function ResultsOf(results: map<string, seq<QuizResult>>, username: string): (rs: seq<QuizResult>)
    ensures username !in results ==> rs == []
  {
    if username in results then results[username] else []
  }

  /** Adding a result for one user appends it to that user's list, creating the list when
      needed, and leaves every other user's list alone. */
  lemma AddedResult(results: map<string, seq<QuizResult>>, username: string, r: QuizResult, other: string)
    requires other != username
    ensures var after := results[username := ResultsOf(results, username) + [r]];
      after.Keys == results.Keys + {username}
      && ResultsOf(after, username) == ResultsOf(results, username) + [r]
      && ResultsOf(after, other) == ResultsOf(results, other)
      && EntryOf(username, ResultsOf(after, username)).totalQuizzes == EntryOf(username, ResultsOf(results, username)).totalQuizzes + 1
      && EntryOf(username, ResultsOf(after, username)).totalScore
         == Wrap32(EntryOf(username, ResultsOf(results, username)).totalScore + r.earnedPoints)
  {
    var rs := ResultsOf(results, username) + [r];
    assert rs[..|rs| - 1] == ResultsOf(results, username);
  }

  /** `LeaderboardManager`: every user's results, in the order they were added. */
  class LeaderboardManager {
    var userResults: map<string, seq<QuizResult>>

    constructor ()
      ensures userResults == map[]
    {
      userResults := map[];
    }

    /** `addResult`. */
    method AddResult(username: string, result: QuizResult)
      modifies this
      ensures userResults == old(userResults)[username := ResultsOf(old(userResults), username) + [result]]
    {
      userResults := userResults[username := ResultsOf(userResults, username) + [result]];
    }

    /** `getUserResults`: an unknown user has no results, and none are recorded for them. */
    function UserResults(username: string): (rs: seq<QuizResult>)
      reads this
      ensures username !in userResults ==> rs == []
      ensures username in userResults ==> rs == userResults[username]
    {
      ResultsOf(userResults, username)
    }

    /** `getLeaderboard`: the entry set is visited in the map's own order, which the model
        leaves open, and the entries are then sorted best average first. */
    method GetLeaderboard() returns (board: seq<Entry>)
      ensures IsBoardOf(board, userResults)
    {
      var entries: seq<Entry> := [];
      ghost var order: seq<string> := [];
      var remaining := userResults.Keys;
      while remaining != {}
        invariant remaining <= userResults.Keys
        invariant IsOrderingOf(order, userResults.Keys - remaining)
        invariant entries == EntriesFor(userResults, order)
        decreases |remaining|
      {
        var u :| u in remaining;
        OrderingExtend(order, userResults.Keys - remaining, u);
        assert userResults.Keys - (remaining - {u}) == (userResults.Keys - remaining) + {u};
        assert (order + [u])[..|order|] == order;
        entries := entries + [EntryOf(u, userResults[u])];
        order := order + [u];
        remaining := remaining - {u};
      }
      assert userResults.Keys - remaining == userResults.Keys;
      board := SortByAverage(entries);
    }

    /** `getUserRank`: the 1-based place of the user on the leaderboard, -1 for a user with
        no results. */
    method GetUserRank(username: string) returns (rank: int, ghost board: seq<Entry>)
      ensures IsBoardOf(board, userResults)
      ensures rank == -1 <==> username !in userResults
      ensures rank != -1 ==> 1 <= rank <= |board| && board[rank - 1].username == username
    {
      var b := GetLeaderboard();
      board := b;
      rank := FindRank(b, username);
      BoardMembers(b, userResults);
      BoardCoversUsers(b, userResults);
    }

    /** `getFormattedLeaderboard`: a fixed text when nobody has results, otherwise the
        banner and one ranked row per entry; `fmt` renders a `double` as `%.1f` does. */
    method FormattedLeaderboard(fmt: real -> string) returns (text: string, ghost board: seq<Entry>)
      ensures IsBoardOf(board, userResults)
      ensures board == [] ==> text == "No quiz results yet"
      ensures board != [] ==> text == Banner() + Rows(board, 1, RowFormat(fmt))
    {
      var b := GetLeaderboard();
      board := b;
      if b == [] {
        return "No quiz results yet", board;
      }
      text := AppendRows(Banner(), b, RowFormat(fmt));
    }

    /** `clearResults`. */
    method ClearResults()
      modifies this
      ensures userResults == map[]
    {
      userResults := map[];
    }
  }

  /** The search loop of `getUserRank`: the 1-based place of the first entry with that
      name, or -1. */
  method FindRank(board: seq<Entry>, username: string) returns (rank: int)
    ensures rank == -1 <==> forall i :: 0 <= i < |board| ==> board[i].username != username
    ensures rank != -1 ==> 1 <= rank <= |board| && board[rank - 1].username == username
    ensures rank != -1 ==> forall i :: 0 <= i < rank - 1 ==> board[i].username != username
  {
    var i := 0;
    while i < |board|
      invariant 0 <= i <= |board|
      invariant forall j :: 0 <= j < i ==> board[j].username != username
    {
      if board[i].username == username {
        return i + 1;
      }
      i := i + 1;
    }
    return -1;
  }

  /** One more entry adds one more row, ranked after the others. */
  lemma RowsSnoc(board: seq<Entry>, i: int, render: (int, Entry) -> string)
    requires 0 <= i < |board|
    ensures Rows(board[..i + 1], 1, render) == Rows(board[..i], 1, render) + render(i + 1, board[i])
  {
    assert board[..i + 1][..i] == board[..i];
  }

  /** The row loop of `getFormattedLeaderboard`: ranks count up from 1. */
  method AppendRows(prefix: string, board: seq<Entry>, render: (int, Entry) -> string) returns (text: string)
    ensures text == prefix + Rows(board, 1, render)
  {
    text := prefix;
    var rank := 1;
    var i := 0;
    while i < |board|
      invariant 0 <= i <= |board| && rank == i + 1
      invariant text == prefix + Rows(board[..i], 1, render)
    {
      RowsSnoc(board, i, render);
      text := text + render(rank, board[i]);
      rank := rank + 1;
      i := i + 1;
    }
    assert board[..i] == board;
  }

  /** An empty leaderboard is exactly one with no results at all, so the fixed text is
      printed exactly then. */
  lemma EmptyBoardIffNoResults(board: seq<Entry>, results: map<string, seq<QuizResult>>)
    requires IsBoardOf(board, results)
    ensures board == [] <==> results == map[]
  {
    BoardSize(board, results);
    if results != map[] {
      var u :| u in results;
      assert |results| > 0;
    }
  }

  /** A better-ranked user never has a lower average. */
  lemma RankOrder(board: seq<Entry>, results: map<string, seq<QuizResult>>, i: int, j: int)
    requires IsBoardOf(board, results) && 0 <= i < j < |board|
    ensures board[i].username in results && board[j].username in results
    ensures Average(results[board[i].username]) >= Average(results[board[j].username])
  {
    BoardMembers(board, results);
    var order :| IsOrderingOf(order, results.Keys) && board == SortByAverage(EntriesFor(results, order));
    assert board[i].averageScore >= board[j].averageScore;
  }
}
