/** The `list` command (benchmark_keeper/cmd/list_cmd.py): collect the runs recorded at each
    commit and the current run, keep one entry per tag on this machine, score the entries
    with an aggregator, order and cut them, and render one row per entry. */
module Listing {
  import opened Outcomes
  import opened Model
  import opened Sequences
  import opened Sorting
  import opened Text
  import opened Ledger
  import opened Config
  import opened Aggregation

  // ---------------------------------------------------------------------------------------
  // get_commits

  /** One line of `git log --pretty=format:"%H %s"`: hash and subject. */
  datatype Commit = Commit(hash: string, subject: string)

  /** `(x.split(" ")[0], " ".join(x.split(" ")[1:]))`: the hash is the text up to the first
      space and the subject everything after it, so hash, space and subject give back the
      line. */
  function ParseCommitLine(line: string): (c: Commit)
    ensures ' ' in line ==> ' ' !in c.hash && c.hash + " " + c.subject == line
    ensures ' ' !in line ==> c == Commit(line, "")
  {
    var parts := Split(line, ' ');
    JoinSplit(line, ' ');
    SplitCount(line, ' ');
    SplitPiecesHaveNoSeparator(line, ' ');
    assert parts[0] in parts;
    if |parts| > 1 then
      assert Join(' ', parts) == parts[0] + [' '] + Join(' ', parts[1..]);
      Commit(parts[0], Join(' ', parts[1..]))
    else
      Commit(parts[0], Join(' ', parts[1..]))
  }

  function ParseLines(lines: seq<string>): (commits: seq<Commit>)
    ensures |commits| == |lines| && forall i :: 0 <= i < |lines| ==> commits[i] == ParseCommitLine(lines[i])
  {
    seq(|lines|, i requires 0 <= i < |lines| => ParseCommitLine(lines[i]))
  }

  /** `get_commits` given what `git log` wrote to stdout and stderr: anything on stderr is an
      error; otherwise one commit per line of the stripped output. */
  function GetCommits(stdout: string, stderr: string): (r: Raising<seq<Commit>>)
    ensures r.Raises? <==> stderr != ""
    ensures r.Raises? ==> r.error == RuntimeError("Error querying commit list")
    ensures r.Returns? ==> |r.value| == |Split(Strip(stdout), '\n')|
                           && forall i :: 0 <= i < |r.value| ==> r.value[i] == ParseCommitLine(Split(Strip(stdout), '\n')[i])
  {
    if stderr != "" then Raises(RuntimeError("Error querying commit list"))
    else Returns(ParseLines(Split(Strip(stdout), '\n')))
  }

  /** The line `git log` prints for a commit. */
  function LogLine(c: Commit): string {
    c.hash + " " + c.subject
  }

  function LogLines(commits: seq<Commit>): (lines: seq<string>)
    ensures |lines| == |commits| && forall i :: 0 <= i < |commits| ==> lines[i] == LogLine(commits[i])
  {
    seq(|commits|, i requires 0 <= i < |commits| => LogLine(commits[i]))
  }

  /** What `git log --pretty=format:"%H %s"` prints for the commits: one line each. */
  function GitLog(commits: seq<Commit>): string {
    Join('\n', LogLines(commits))
  }

  /** A line with a space-free hash parses back into its hash and subject. */
  lemma ParseLogLine(c: Commit)
    requires ' ' !in c.hash
    ensures ParseCommitLine(LogLine(c)) == c
  {
    var line := LogLine(c);
    assert line == c.hash + [' '] + c.subject;
    SplitPrefix(c.hash, c.subject, ' ');
    JoinSplit(c.subject, ' ');
    assert Split(line, ' ')[1..] == Split(c.subject, ' ');
  }

  /** `get_commits` recovers the commits from the log it reads, provided hashes hold no space
      or newline, subjects no newline, and the log neither starts nor ends with whitespace. */
  lemma {:induction false} GetCommitsRoundTrip(commits: seq<Commit>)
    requires |commits| > 0
    requires forall c :: c in commits ==> ' ' !in c.hash && '\n' !in c.hash && '\n' !in c.subject
    requires commits[0].hash != "" && !IsSpace(commits[0].hash[0])
    requires var last := commits[|commits| - 1].subject; last != "" && !IsSpace(last[|last| - 1])
    ensures GetCommits(GitLog(commits), "") == Returns(commits)
  {
    var lines := LogLines(commits);
    var log := GitLog(commits);
    LogEnds(commits);
    StripUnchanged(log);
    LogLinesSplit(commits);
    ParseLogLines(commits);
  }

  lemma LogEnds(commits: seq<Commit>)
    requires |commits| > 0
    requires commits[0].hash != "" && !IsSpace(commits[0].hash[0])
    requires var last := commits[|commits| - 1].subject; last != "" && !IsSpace(last[|last| - 1])
    ensures var log := GitLog(commits); log != [] && !IsSpace(log[0]) && !IsSpace(log[|log| - 1])
  {
    var lines := LogLines(commits);
    var log := GitLog(commits);
    JoinEnds('\n', lines);
    var first, lastLine := lines[0], lines[|lines| - 1];
    var subject := commits[|commits| - 1].subject;
    assert first[0] == commits[0].hash[0];
    assert lastLine[|lastLine| - 1] == subject[|subject| - 1];
    assert log[0] == first[0];
    assert log[|log| - 1] == lastLine[|lastLine| - 1];
  }

  lemma LogLinesSplit(commits: seq<Commit>)
    requires |commits| > 0
    requires forall c :: c in commits ==> '\n' !in c.hash && '\n' !in c.subject
    ensures Split(GitLog(commits), '\n') == LogLines(commits)
  {
    var lines := LogLines(commits);
    forall l | l in lines ensures '\n' !in l {
      var i :| 0 <= i < |lines| && lines[i] == l;
      assert commits[i] in commits;
    }
    SplitJoin(lines, '\n');
  }

  lemma ParseLogLines(commits: seq<Commit>)
    requires forall c :: c in commits ==> ' ' !in c.hash
    ensures ParseLines(LogLines(commits)) == commits
  {
    var lines := LogLines(commits);
    forall i | 0 <= i < |commits| ensures ParseCommitLine(lines[i]) == commits[i] {
      assert commits[i] in commits;
      ParseLogLine(commits[i]);
    }
  }

  /** An empty log still yields one commit, with empty hash and subject, as `"".split("\n")`
      is `[""]`. */
  lemma EmptyLogOneBlankCommit()
    ensures GetCommits("", "") == Returns([Commit("", "")])
  {
    StripEmpty();
    assert Split("", '\n') == [""];
    BlankLine();
  }

  lemma BlankLine()
    ensures ParseLines([""]) == [Commit("", "")]
  {
    assert Split("", ' ') == [""];
    assert ParseCommitLine("") == Commit("", "");
    var commits := ParseLines([""]);
    assert |commits| == 1 && commits[0] == Commit("", "");
  }

  // ---------------------------------------------------------------------------------------
  // Collecting the runs

  datatype CommitData = CommitData(commitHash: string, subject: string, data: BenchmarkRun)

  datatype AnnotatedCommitData = AnnotatedCommitData(data: CommitData, score: real)

  function DataTag(cd: CommitData): string {
    cd.data.tag
  }

  function AnnotatedTag(an: AnnotatedCommitData): string {
    an.data.data.tag
  }

  /** The hash shown for the current run: forty zeros. */
  const CurrentHash: string := "0000000000000000000000000000000000000000"

  /** The entries for the commits whose report holds a run of the experiment, in log order;
      `show(hash)` is the report text at that commit, or None when it has none. */
  function Found(commits: seq<Commit>, show: string -> Option<string>, parse: string -> YamlLoad, key: RunKey): (found: seq<CommitData>)
    ensures |found| <= |commits|
    ensures forall cd :: cd in found ==> KeyOf(cd.data) == key
    ensures IsSubsequence(EntryCommits(found), commits)
  {
    if commits == [] then []
    else
      var c := commits[|commits| - 1];
      var init := Found(commits[..|commits| - 1], show, parse, key);
      match CommitRun(show(c.hash), parse, key)
      case Got(run) =>
        var cd := CommitData(c.hash, c.subject, run);
        assert (init + [cd])[..|init|] == init;
        assert EntryCommits(init + [cd]) == EntryCommits(init) + [c];
        init + [cd]
      case Failed(_) => init
  }

  /** The commit (hash and subject) each entry was made from, in order. */
  function EntryCommits(entries: seq<CommitData>): (commits: seq<Commit>)
    ensures |commits| == |entries|
  {
    if entries == [] then []
    else
      var last := entries[|entries| - 1];
      EntryCommits(entries[..|entries| - 1]) + [Commit(last.commitHash, last.subject)]
  }

  /** Every entry comes from a commit of the log whose lookup found that run, and the run
      belongs to the experiment; every commit whose lookup succeeded has an entry. */
  lemma {:induction false} FoundExactly(commits: seq<Commit>, show: string -> Option<string>, parse: string -> YamlLoad, key: RunKey)
    ensures forall cd :: cd in Found(commits, show, parse, key) ==>
              KeyOf(cd.data) == key
              && exists c :: c in commits && c.hash == cd.commitHash && c.subject == cd.subject
                             && CommitRun(show(c.hash), parse, key) == Got(cd.data)
    ensures forall c :: c in commits && CommitRun(show(c.hash), parse, key).Got? ==>
              CommitData(c.hash, c.subject, CommitRun(show(c.hash), parse, key).value) in Found(commits, show, parse, key)
  {
    if commits != [] {
      var init := commits[..|commits| - 1];
      FoundExactly(init, show, parse, key);
      assert commits == init + [commits[|commits| - 1]];
      assert forall c :: c in init ==> c in commits;
    }
  }

  /** The loop over `get_commits()` that keeps the commits `get_commit_run` found a run for. */
  method CollectCommitData(commits: seq<Commit>, show: string -> Option<string>, parse: string -> YamlLoad, key: RunKey)
    returns (found: seq<CommitData>)
    ensures found == Found(commits, show, parse, key)
  {
    found := [];
    for i := 0 to |commits|
      invariant found == Found(commits[..i], show, parse, key)
    {
      assert commits[..i + 1][..i] == commits[..i];
      var res := CommitRun(show(commits[i].hash), parse, key);
      if res.Got? {
        found := found + [CommitData(commits[i].hash, commits[i].subject, res.value)];
      }
    }
    assert commits[..|commits|] == commits;
  }

  /** The entries with the current run, when there is one, inserted in front. */
  function Timeline(found: seq<CommitData>, current: Retrieved<BenchmarkRun>): (entries: seq<CommitData>)
    ensures current.Failed? ==> entries == found
    ensures current.Got? ==> |entries| == |found| + 1 && entries[1..] == found
                             && entries[0] == CommitData(CurrentHash, "Current", current.value)
    ensures current.Got? ==> Reverse(entries)[|entries| - 1] == entries[0]
  {
    if current.Got? then [CommitData(CurrentHash, "Current", current.value)] + found else found
  }

  /** `current_tag`: the current run's tag, or "" when there is no current run. */
  function CurrentTag(current: Retrieved<BenchmarkRun>): (tag: string)
    ensures current.Got? ==> tag == DataTag(Timeline([], current)[0])
    ensures current.Failed? ==> tag == ""
  {
    if current.Got? then current.value.tag else ""
  }

  /** The entries recorded on `machine`, in order. */
  function OnMachine(entries: seq<CommitData>, machine: string): (r: seq<CommitData>)
    ensures forall cd :: cd in r <==> cd in entries && cd.data.machine == machine
    ensures IsSubsequence(r, entries)
  {
    if entries == [] then []
    else
      LastSplit(entries);
      var init, last := entries[..|entries| - 1], entries[|entries| - 1];
      var kept := OnMachine(init, machine);
      if last.data.machine == machine then
        assert (kept + [last])[..|kept|] == kept;
        kept + [last]
      else kept
  }

  lemma LastSplit<T>(s: seq<T>)
    requires s != []
    ensures forall x :: x in s <==> x in s[..|s| - 1] || x == s[|s| - 1]
  {
    assert s == s[..|s| - 1] + [s[|s| - 1]];
  }

  /** The entries the listing keeps: oldest first, on this machine, the first of each tag. */
  function Shown(entries: seq<CommitData>, machine: string): (shown: seq<CommitData>)
    ensures |shown| <= |entries|
    ensures DistinctBy(shown, DataTag)
    ensures forall cd :: cd in shown ==> cd.data.machine == machine
  {
    var on := OnMachine(Reverse(entries), machine);
    DedupDistinct(on, DataTag);
    OnMachineLength(Reverse(entries), machine);
    DedupBy(on, DataTag)
  }

  /** The listing keeps the oldest-first order of the reversed timeline, and for each tag it
      shows the first entry of that order recorded on this machine with the tag. */
  lemma ShownOrder(entries: seq<CommitData>, machine: string)
    ensures IsSubsequence(Shown(entries, machine), Reverse(entries))
    ensures forall t :: FirstWith(Shown(entries, machine), DataTag, t)
                        == FirstWith(OnMachine(Reverse(entries), machine), DataTag, t)
  {
    var on := OnMachine(Reverse(entries), machine);
    DedupSubsequence(on, DataTag);
    SubsequenceTransitive(Shown(entries, machine), on, Reverse(entries));
    forall t ensures FirstWith(Shown(entries, machine), DataTag, t) == FirstWith(on, DataTag, t) {
      DedupKeepsFirst(on, DataTag, t);
    }
  }

  lemma {:induction false} OnMachineLength(entries: seq<CommitData>, machine: string)
    ensures |OnMachine(entries, machine)| <= |entries|
  {
    if entries != [] {
      OnMachineLength(entries[..|entries| - 1], machine);
    }
  }

  /** The comprehension over `commit_data[::-1]`: an entry is kept when it was recorded on
      this machine and its tag is not in `seen`; only kept tags enter `seen`. */
  method SelectShown(entries: seq<CommitData>, machine: string) returns (shown: seq<CommitData>)
    ensures shown == Shown(entries, machine)
  {
    var reversed := Reverse(entries);
    var seen: set<string> := {};
    shown := [];
    for i := 0 to |reversed|
      invariant shown == DedupBy(OnMachine(reversed[..i], machine), DataTag)
      invariant seen == KeysOf(shown, DataTag)
    {
      var cd := reversed[i];
      var before := OnMachine(reversed[..i], machine);
      assert reversed[..i + 1][..i] == reversed[..i];
      DedupKeys(before, DataTag);
      if cd.data.machine == machine {
        assert OnMachine(reversed[..i + 1], machine) == before + [cd];
        assert (before + [cd])[..|before|] == before;
        if cd.data.tag !in seen {
          KeysOfAppend(shown, cd, DataTag);
          shown := shown + [cd];
          seen := seen + {cd.data.tag};
        }
      }
    }
    assert reversed[..|reversed|] == reversed;
  }

  /** Every shown entry was recorded on this machine and appears in the timeline, no two
      share a tag, and every tag recorded on this machine is shown. */
  lemma ShownProperties(entries: seq<CommitData>, machine: string)
    ensures forall cd :: cd in Shown(entries, machine) ==> cd.data.machine == machine && cd in entries
    ensures DistinctBy(Shown(entries, machine), DataTag)
    ensures forall cd :: cd in entries && cd.data.machine == machine ==>
              cd.data.tag in KeysOf(Shown(entries, machine), DataTag)
  {
    var on := OnMachine(Reverse(entries), machine);
    DedupSubsequence(on, DataTag);
    SubsequenceMembers(DedupBy(on, DataTag), on);
    DedupDistinct(on, DataTag);
    ShownFromEntries(entries, machine);
    EveryTagShown(entries, machine);
  }

  lemma ShownFromEntries(entries: seq<CommitData>, machine: string)
    ensures forall cd :: cd in Shown(entries, machine) ==> cd.data.machine == machine && cd in entries
  {
    var on := OnMachine(Reverse(entries), machine);
    DedupSubsequence(on, DataTag);
    SubsequenceMembers(DedupBy(on, DataTag), on);
    forall cd | cd in Shown(entries, machine) ensures cd.data.machine == machine && cd in entries {
      assert cd in on;
      var k :| 0 <= k < |Reverse(entries)| && Reverse(entries)[k] == cd;
      assert entries[|entries| - 1 - k] == cd;
    }
  }

  lemma EveryTagShown(entries: seq<CommitData>, machine: string)
    ensures forall cd :: cd in entries && cd.data.machine == machine ==>
              cd.data.tag in KeysOf(Shown(entries, machine), DataTag)
  {
    var on := OnMachine(Reverse(entries), machine);
    DedupKeys(on, DataTag);
    forall cd | cd in entries && cd.data.machine == machine
      ensures cd.data.tag in KeysOf(Shown(entries, machine), DataTag)
    {
      var i :| 0 <= i < |entries| && entries[i] == cd;
      assert Reverse(entries)[|entries| - 1 - i] == cd;
      assert cd in on;
      assert DataTag(cd) in KeysOf(on, DataTag);
    }
  }

  /** When this machine has a current run, its tag is among the shown entries (the entry
      shown for it may be an older commit with the same tag). */
  lemma CurrentTagShown(found: seq<CommitData>, current: Retrieved<BenchmarkRun>, machine: string)
    requires current.Got? && current.value.machine == machine
    ensures CurrentTag(current) in KeysOf(Shown(Timeline(found, current), machine), DataTag)
  {
    var entries := Timeline(found, current);
    assert entries[0] in entries;
    ShownProperties(entries, machine);
  }

  // ---------------------------------------------------------------------------------------
  // Scoring, ordering and the limit

  /** Each entry paired with its score; `aggregated[i]` raises IndexError when the
      aggregator returned fewer scores than there are entries. */
  function Annotated(shown: seq<CommitData>, scores: seq<real>): (r: Raising<seq<AnnotatedCommitData>>)
    ensures r.Raises? <==> |scores| < |shown|
    ensures r.Raises? ==> r.error == IndexError
    ensures r.Returns? ==> |r.value| == |shown|
                           && forall i :: 0 <= i < |shown| ==> r.value[i].data == shown[i] && r.value[i].score == scores[i]
  {
    if |scores| < |shown| then Raises(IndexError)
    else Returns(seq(|shown|, i requires 0 <= i < |shown| => AnnotatedCommitData(shown[i], scores[i])))
  }

  /** The loop over `enumerate(commit_data)` building `annotated_data`. */
  method Annotate(shown: seq<CommitData>, scores: seq<real>) returns (r: Raising<seq<AnnotatedCommitData>>)
    ensures r == Annotated(shown, scores)
  {
    var annotated: seq<AnnotatedCommitData> := [];
    for i := 0 to |shown|
      invariant i <= |scores|
      invariant |annotated| == i
      invariant forall k :: 0 <= k < i ==> annotated[k] == AnnotatedCommitData(shown[k], scores[k])
    {
      if i >= |scores| {
        return Raises(IndexError);
      }
      annotated := annotated + [AnnotatedCommitData(shown[i], scores[i])];
    }
    var expected := Annotated(shown, scores);
    assert annotated == expected.value;
    r := Returns(annotated);
  }

  function Scores(annotated: seq<AnnotatedCommitData>): (s: seq<real>)
    ensures |s| == |annotated| && forall i :: 0 <= i < |annotated| ==> s[i] == annotated[i].score
  {
    seq(|annotated|, i requires 0 <= i < |annotated| => annotated[i].score)
  }

  /** The sort keys: `sort(key=score, reverse=True)` keeps equal scores in their original
      order, which is the ascending stable order of the negated scores. */
  function SortKeys(annotated: seq<AnnotatedCommitData>, lowerIsBetter: bool): (keys: seq<real>)
    ensures |keys| == |annotated|
  {
    if lowerIsBetter then Negated(Scores(annotated)) else Scores(annotated)
  }

  /** `annotated_data` after the optional sort. */
  function Ordered(annotated: seq<AnnotatedCommitData>, lowerIsBetter: bool, commitOrder: bool): (o: seq<AnnotatedCommitData>)
    ensures |o| == |annotated|
    ensures multiset(o) == multiset(annotated)
  {
    if commitOrder then annotated
    else
      StableOrderPermutes(annotated, SortKeys(annotated, lowerIsBetter));
      Permuted(annotated, StableOrder(SortKeys(annotated, lowerIsBetter)))
  }

  /** Sorting puts better scores later (the best last) and keeps equal scores in the order
      they had; the sorted list is a permutation of the entries. */
  lemma OrderedByScore(annotated: seq<AnnotatedCommitData>, lowerIsBetter: bool, p: nat, q: nat)
    requires p < q < |annotated|
    ensures var o := Ordered(annotated, lowerIsBetter, false);
            var order := StableOrder(SortKeys(annotated, lowerIsBetter));
            (lowerIsBetter ==> o[p].score >= o[q].score)
            && (!lowerIsBetter ==> o[p].score <= o[q].score)
            && (o[p].score == o[q].score ==> order[p] < order[q])
  {
    StableOrderAscending(SortKeys(annotated, lowerIsBetter), p, q);
  }

  /** Sorting neither adds nor drops an entry. */
  lemma OrderedMembers(annotated: seq<AnnotatedCommitData>, lowerIsBetter: bool, commitOrder: bool)
    ensures forall x :: x in Ordered(annotated, lowerIsBetter, commitOrder) <==> x in annotated
  {
    var o := Ordered(annotated, lowerIsBetter, commitOrder);
    forall x ensures x in o <==> x in annotated {
      assert x in o <==> x in multiset(o);
    }
  }

  /** After sorting, the last entry has the best score of all. */
  lemma BestIsLast(annotated: seq<AnnotatedCommitData>, lowerIsBetter: bool)
    requires |annotated| > 0
    ensures var o := Ordered(annotated, lowerIsBetter, false);
            var best := o[|o| - 1].score;
            forall an :: an in annotated ==> if lowerIsBetter then best <= an.score else best >= an.score
  {
    var o := Ordered(annotated, lowerIsBetter, false);
    var n := |annotated|;
    forall an | an in annotated
      ensures if lowerIsBetter then o[n - 1].score <= an.score else o[n - 1].score >= an.score
    {
      assert an in multiset(o);
      var p :| 0 <= p < n && o[p] == an;
      if p < n - 1 { OrderedByScore(annotated, lowerIsBetter, p, n - 1); }
    }
  }

  /** `rows[-limit:]`: a positive limit keeps the last `limit` rows, zero keeps them all
      (`[-0:]` is `[0:]`), and a negative limit drops the first `-limit` rows. */
  function LimitRows<T>(rows: seq<T>, limit: int): (r: seq<T>)
    ensures limit > 0 ==> r == rows[|rows| - (if limit < |rows| then limit else |rows|)..]
    ensures limit == 0 ==> r == rows
    ensures limit < 0 ==> r == rows[(if -limit < |rows| then -limit else |rows|)..]
  {
    var start := -limit;
    var from := if start < 0 then (if |rows| + start < 0 then 0 else |rows| + start)
                else (if start > |rows| then |rows| else start);
    rows[from..]
  }

  /** The rows shown: the ordered entries, cut by the limit when there is one, with the
      first entry carrying the current tag put back in front when the cut removed it. */
  function Arranged(annotated: seq<AnnotatedCommitData>, lowerIsBetter: bool, commitOrder: bool,
                    limit: Option<int>, currentTag: string): (rows: seq<AnnotatedCommitData>)
    ensures limit.None? ==> multiset(rows) == multiset(annotated)
    ensures forall x :: x in rows ==> x in annotated
    ensures limit.Some? ==> CutFrom(Ordered(annotated, lowerIsBetter, commitOrder), limit.value, currentTag, rows)
  {
    OrderedMembers(annotated, lowerIsBetter, commitOrder);
    Cut(Ordered(annotated, lowerIsBetter, commitOrder), limit, currentTag)
  }

  /** The limit applied to the ordered entries `o`, with the first entry carrying the
      current tag put back in front when the cut removed it; only entries of `o` are kept. */
  function Cut(o: seq<AnnotatedCommitData>, limit: Option<int>, currentTag: string): (rows: seq<AnnotatedCommitData>)
    ensures limit.None? ==> rows == o
    ensures forall x :: x in rows ==> x in o
    ensures limit.Some? ==> CutFrom(o, limit.value, currentTag, rows)
  {
    if limit.None? then o
    else
      var pinned := FirstWith(o, AnnotatedTag, currentTag);
      var kept := LimitRows(o, limit.value);
      if pinned.Some? && pinned.value !in kept then [pinned.value] + kept else kept
  }

  /** With a limit, `rows` is the window `o[-limit:]`, preceded by the first entry carrying
      the current tag exactly when the window does not hold that entry. */
  predicate CutFrom(o: seq<AnnotatedCommitData>, limit: int, currentTag: string, rows: seq<AnnotatedCommitData>) {
    var kept := LimitRows(o, limit);
    var pinned := FirstWith(o, AnnotatedTag, currentTag);
    (rows == kept && (pinned.None? || pinned.value in kept))
    || (pinned.Some? && pinned.value !in kept && rows == [pinned.value] + kept)
  }

  /** A positive limit keeps at most one row more than it says. */
  lemma CutBound(o: seq<AnnotatedCommitData>, limit: int, currentTag: string)
    requires limit > 0
    ensures |Cut(o, Some(limit), currentTag)| <= limit + 1
  {
  }

  /** A limit that is not negative keeps the last (best) entry last. */
  lemma CutKeepsLast(o: seq<AnnotatedCommitData>, limit: Option<int>, currentTag: string)
    requires o != [] && (limit.None? || limit.value >= 0)
    ensures var rows := Cut(o, limit, currentTag); rows != [] && rows[|rows| - 1] == o[|o| - 1]
  {
    if limit.Some? {
      LimitKeepsLast(o, limit.value);
    }
  }

  /** An entry with the current tag always survives the cut. */
  lemma CutKeepsCurrent(o: seq<AnnotatedCommitData>, limit: Option<int>, currentTag: string)
    requires currentTag in KeysOf(o, AnnotatedTag)
    ensures exists x :: x in Cut(o, limit, currentTag) && AnnotatedTag(x) == currentTag
  {
    var rows := Cut(o, limit, currentTag);
    if limit.None? {
      var x :| x in o && AnnotatedTag(x) == currentTag;
      assert x in rows;
    } else {
      var pinned := FirstWith(o, AnnotatedTag, currentTag);
      var kept := LimitRows(o, limit.value);
      if pinned.value !in kept {
        assert rows[0] == pinned.value;
      } else {
        assert rows == kept;
      }
    }
  }

  /** The sort, then the search for the current entry and the cut. */
  method Arrange(annotated: seq<AnnotatedCommitData>, lowerIsBetter: bool, commitOrder: bool,
                 limit: Option<int>, currentTag: string) returns (rows: seq<AnnotatedCommitData>)
    ensures rows == Arranged(annotated, lowerIsBetter, commitOrder, limit, currentTag)
  {
    rows := annotated;
    if !commitOrder {
      rows := Permuted(annotated, StableOrder(SortKeys(annotated, lowerIsBetter)));
    }
    if limit.Some? {
      var current := FindCurrent(rows, currentTag);
      var kept := LimitRows(rows, limit.value);
      if current.Some? && current.value !in kept {
        kept := [current.value] + kept;
      }
      rows := kept;
    }
  }

  /** The loop that looks for the entry carrying the current tag: the first one found. */
  method FindCurrent(rows: seq<AnnotatedCommitData>, currentTag: string) returns (current: Option<AnnotatedCommitData>)
    ensures current == FirstWith(rows, AnnotatedTag, currentTag)
  {
    current := None;
    var i := 0;
    while i < |rows|
      invariant 0 <= i <= |rows|
      invariant forall j :: 0 <= j < i ==> AnnotatedTag(rows[j]) != currentTag
    {
      if AnnotatedTag(rows[i]) == currentTag {
        current := Some(rows[i]);
        break;
      }
      i := i + 1;
    }
    ghost var first := FirstWith(rows, AnnotatedTag, currentTag);
    if current.Some? {
      assert rows[i] in rows;
      ghost var k :| 0 <= k < |rows| && rows[k] == first.value && AnnotatedTag(rows[k]) == currentTag
               && forall j :: 0 <= j < k ==> AnnotatedTag(rows[j]) != currentTag;
      assert k == i;
    } else {
      assert forall x :: x in rows ==> AnnotatedTag(x) != currentTag;
    }
  }

  /** Whatever the limit, an entry with the current tag is shown whenever one was scored. */
  lemma CurrentAlwaysListed(annotated: seq<AnnotatedCommitData>, lowerIsBetter: bool, commitOrder: bool,
                            limit: Option<int>, currentTag: string)
    requires exists an :: an in annotated && AnnotatedTag(an) == currentTag
    ensures exists an :: an in Arranged(annotated, lowerIsBetter, commitOrder, limit, currentTag)
                         && AnnotatedTag(an) == currentTag
  {
    var o := Ordered(annotated, lowerIsBetter, commitOrder);
    var an :| an in annotated && AnnotatedTag(an) == currentTag;
    assert an in multiset(o);
    assert currentTag in KeysOf(o, AnnotatedTag);
    CutKeepsCurrent(o, limit, currentTag);
  }

  /** Without a limit, or with one that is not negative, the last row is the best-scored
      entry when the rows are sorted. */
  lemma LastRowIsBest(annotated: seq<AnnotatedCommitData>, lowerIsBetter: bool, limit: Option<int>, currentTag: string)
    requires |annotated| > 0 && (limit.None? || limit.value >= 0)
    ensures var rows := Arranged(annotated, lowerIsBetter, false, limit, currentTag);
            rows != []
            && forall an :: an in annotated ==>
                 if lowerIsBetter then rows[|rows| - 1].score <= an.score else rows[|rows| - 1].score >= an.score
  {
    BestIsLast(annotated, lowerIsBetter);
    CutKeepsLast(Ordered(annotated, lowerIsBetter, false), limit, currentTag);
  }

  lemma LimitKeepsLast<T>(rows: seq<T>, limit: int)
    requires rows != [] && limit >= 0
    ensures var kept := LimitRows(rows, limit); kept != [] && kept[|kept| - 1] == rows[|rows| - 1]
  {
  }

  // ---------------------------------------------------------------------------------------
  // Rendering and the whole command

  /** One printed line: score, unit, the first ten characters of the hash, subject, and the
      "(best)" and "(current)" markers. */
  datatype Row = Row(score: real, unit: string, shortHash: string, subject: string, best: bool, current: bool)

  function Prefix(s: string, n: nat): (r: string)
    ensures |r| == (if n < |s| then n else |s|) && r == s[..|r|]
  {
    if n < |s| then s[..n] else s
  }

  /** The printing loop: the last row is marked best, rows with the current tag current. */
  function Render(rows: seq<AnnotatedCommitData>, unit: string, currentTag: string): (out: seq<Row>)
    ensures |out| == |rows|
    ensures forall i :: 0 <= i < |rows| ==>
              out[i].score == rows[i].score && out[i].unit == unit && out[i].subject == rows[i].data.subject
              && out[i].shortHash == Prefix(rows[i].data.commitHash, 10)
              && (out[i].best <==> i == |rows| - 1)
              && (out[i].current <==> AnnotatedTag(rows[i]) == currentTag)
  {
    seq(|rows|, i requires 0 <= i < |rows| =>
      Row(rows[i].score, unit, Prefix(rows[i].data.commitHash, 10), rows[i].data.subject,
          i == |rows| - 1, AnnotatedTag(rows[i]) == currentTag))
  }

  /** The benchmark maps handed to the aggregator. */
  function BenchmarksOf(shown: seq<CommitData>): (results: seq<Benchmarks>)
    ensures |results| == |shown| && forall i :: 0 <= i < |shown| ==> results[i] == shown[i].data.benchmarks
  {
    seq(|shown|, i requires 0 <= i < |shown| => shown[i].data.benchmarks)
  }

  /** What `list` prints, or the exception that ends it. `experiment` is the active
      experiment, `machine` this machine's name, `logOut`/`logErr` what `git log` wrote,
      `show(hash)` the report text at a commit, `current` what `get_current_run` returned. */
  function ListOutcome(experiment: Option<Experiment>, machine: string, logOut: string, logErr: string,
                       show: string -> Option<string>, parse: string -> YamlLoad,
                       current: Raising<Retrieved<BenchmarkRun>>, presets: map<string, Aggregator>,
                       aggregatorName: Option<string>, limit: Option<int>, commitOrder: bool): (r: Raising<seq<Row>>)
    ensures r.Returns? ==> BestMarked(r.value)
  {
    if experiment.None? then Raises(RuntimeError("Experiment missing"))
    else
      match GetCommits(logOut, logErr)
      case Raises(e) => Raises(e)
      case Returns(commits) =>
        var found := Found(commits, show, parse, RunKey(experiment.value.name, experiment.value.version));
        match current
        case Raises(e) => Raises(e)
        case Returns(cur) =>
          var shown := Shown(Timeline(found, cur), machine);
          match LookupPreset(presets, aggregatorName)
          case Raises(e) => Raises(e)
          case Returns(agg) =>
            ScoredOutcome(shown, agg, limit, commitOrder, CurrentTag(cur))
  }

  /** Exactly the last printed row is marked best. */
  predicate BestMarked(rows: seq<Row>) {
    rows != [] && rows[|rows| - 1].best && forall i :: 0 <= i < |rows| - 1 ==> !rows[i].best
  }

  /** The part of `list` after the entries are chosen: score, annotate, arrange, print. */
  function ScoredOutcome(shown: seq<CommitData>, agg: Aggregator, limit: Option<int>, commitOrder: bool,
                         currentTag: string): (r: Raising<seq<Row>>)
    ensures r.Returns? ==> BestMarked(r.value)
  {
    match AggregateOf(agg, BenchmarksOf(shown))
    case Raises(e) => Raises(e)
    case Returns(scores) =>
      match Annotated(shown, scores)
      case Raises(e) => Raises(e)
      case Returns(annotated) => RowsOutcome(annotated, agg, limit, commitOrder, currentTag)
  }

  /** "No results found" and exit status 0 when no row is left, otherwise the rows. */
  function RowsOutcome(annotated: seq<AnnotatedCommitData>, agg: Aggregator, limit: Option<int>, commitOrder: bool,
                       currentTag: string): (r: Raising<seq<Row>>)
    ensures r.Raises? ==> r.error == Exit(0)
    ensures r.Raises? <==> Arranged(annotated, LowerIsBetter(agg), commitOrder, limit, currentTag) == []
    ensures r.Returns? ==> |r.value| == |Arranged(annotated, LowerIsBetter(agg), commitOrder, limit, currentTag)|
    ensures r.Returns? ==> BestMarked(r.value)
  {
    var rows := Arranged(annotated, LowerIsBetter(agg), commitOrder, limit, currentTag);
    if rows == [] then Raises(Exit(0))
    else Returns(Render(rows, Unit(agg), currentTag))
  }

  /** `list_cmd`, after `get_config()`: the active experiment and machine name come from the
      configuration, the presets from the registry. */
  method ListCommand(app: AppConfig, logOut: string, logErr: string, show: string -> Option<string>,
                     parse: string -> YamlLoad, current: Raising<Retrieved<BenchmarkRun>>,
                     registry: AggregatorRegistry, aggregatorName: Option<string>, limit: Option<int>,
                     commitOrder: bool) returns (r: Raising<seq<Row>>)
    ensures r == ListOutcome(app.ActiveExperiment(), app.localConfig.machineName, logOut, logErr, show, parse,
                             current, registry.presets, aggregatorName, limit, commitOrder)
  {
    var experiment := app.ActiveExperiment();
    if experiment.None? {
      return Raises(RuntimeError("Experiment missing"));
    }
    var commits := GetCommits(logOut, logErr);
    if commits.Raises? {
      return Raises(commits.error);
    }
    var key := RunKey(experiment.value.name, experiment.value.version);
    var found := CollectCommitData(commits.value, show, parse, key);
    if current.Raises? {
      return Raises(current.error);
    }
    var shown := SelectShown(Timeline(found, current.value), app.localConfig.machineName);
    var agg := LookupPreset(registry.presets, aggregatorName);
    if agg.Raises? {
      return Raises(agg.error);
    }
    r := ScoreAndRender(shown, agg.value, limit, commitOrder, CurrentTag(current.value));
  }

  /** Scoring, annotating, arranging and printing the shown entries. */
  method ScoreAndRender(shown: seq<CommitData>, agg: Aggregator, limit: Option<int>, commitOrder: bool,
                        currentTag: string) returns (r: Raising<seq<Row>>)
    ensures r == ScoredOutcome(shown, agg, limit, commitOrder, currentTag)
  {
    var scores := Aggregate(agg, BenchmarksOf(shown));
    if scores.Raises? {
      return Raises(scores.error);
    }
    var annotated := Annotate(shown, scores.value);
    if annotated.Raises? {
      return Raises(annotated.error);
    }
    var rows := Arrange(annotated.value, LowerIsBetter(agg), commitOrder, limit, currentTag);
    if rows == [] {
      return Raises(Exit(0));
    }
    r := Returns(Render(rows, Unit(agg), currentTag));
  }

  /** No commit's report holds a run of the experiment. */
  predicate NoRunAtAnyCommit(commits: seq<Commit>, show: string -> Option<string>, parse: string -> YamlLoad, key: RunKey) {
    forall c :: c in commits ==> CommitRun(show(c.hash), parse, key).Failed?
  }

  /** With no run of the experiment at any commit and no current run, the mean preset
      ends the command with status 0 ("No results found"). */
  lemma NoRunsOutcome(experiment: Experiment, machine: string, logOut: string,
                      show: string -> Option<string>, parse: string -> YamlLoad,
                      limit: Option<int>, commitOrder: bool)
    requires NoRunAtAnyCommit(GetCommits(logOut, "").value, show, parse, RunKey(experiment.name, experiment.version))
    ensures ListOutcome(Some(experiment), machine, logOut, "", show, parse, Returns(Failed(RUN_MISSING)),
                        DefaultPresets(), None, limit, commitOrder) == Raises(Exit(0))
  {
    NoRunsShown(GetCommits(logOut, "").value, show, parse, RunKey(experiment.name, experiment.version), machine);
    ListOutcomeStages(Some(experiment), machine, logOut, "", show, parse, Returns(Failed(RUN_MISSING)),
                      DefaultPresets(), None, limit, commitOrder);
    NothingScored(DefaultPresets()["mean"], limit, commitOrder);
  }

  /** In the same situation the ranking preset raises TypeError instead, from `reduce` over
      no runs, before "No results found" could be printed. */
  lemma NoRunsRanking(experiment: Experiment, machine: string, logOut: string,
                      show: string -> Option<string>, parse: string -> YamlLoad,
                      limit: Option<int>, commitOrder: bool)
    requires NoRunAtAnyCommit(GetCommits(logOut, "").value, show, parse, RunKey(experiment.name, experiment.version))
    ensures ListOutcome(Some(experiment), machine, logOut, "", show, parse, Returns(Failed(RUN_MISSING)),
                        DefaultPresets(), Some("ranking"), limit, commitOrder) == Raises(TypeError)
  {
    var commits := GetCommits(logOut, "").value;
    var key := RunKey(experiment.name, experiment.version);
    NoRunsShown(commits, show, parse, key, machine);
    ListOutcomeStages(Some(experiment), machine, logOut, "", show, parse, Returns(Failed(RUN_MISSING)),
                      DefaultPresets(), Some("ranking"), limit, commitOrder);
    assert LookupPreset(DefaultPresets(), Some("ranking")) == Returns(Ranking);
    NothingRanked(Shown(Timeline(Found(commits, show, parse, key), Failed(RUN_MISSING)), machine),
                  limit, commitOrder, CurrentTag(Failed(RUN_MISSING)));
  }

  lemma NothingRanked(shown: seq<CommitData>, limit: Option<int>, commitOrder: bool, currentTag: string)
    requires shown == []
    ensures ScoredOutcome(shown, Ranking, limit, commitOrder, currentTag) == Raises(TypeError)
  {
    assert BenchmarksOf(shown) == [];
  }

  lemma NoRunsShown(commits: seq<Commit>, show: string -> Option<string>, parse: string -> YamlLoad,
                    key: RunKey, machine: string)
    requires NoRunAtAnyCommit(commits, show, parse, key)
    ensures Shown(Timeline(Found(commits, show, parse, key), Failed(RUN_MISSING)), machine) == []
  {
    NothingFound(commits, show, parse, key);
    assert Timeline(Found(commits, show, parse, key), Failed(RUN_MISSING)) == [];
    ShownEmpty(machine);
  }

  lemma ShownEmpty(machine: string)
    ensures Shown([], machine) == []
  {
    assert Reverse<CommitData>([]) == [];
    assert OnMachine([], machine) == [];
  }

  /** Past the experiment, the log, the current run and the preset lookup, `list` is the
      scoring and printing of the shown entries. */
  lemma ListOutcomeStages(experiment: Option<Experiment>, machine: string, logOut: string, logErr: string,
                          show: string -> Option<string>, parse: string -> YamlLoad,
                          current: Raising<Retrieved<BenchmarkRun>>, presets: map<string, Aggregator>,
                          aggregatorName: Option<string>, limit: Option<int>, commitOrder: bool)
    requires experiment.Some? && logErr == "" && current.Returns? && LookupPreset(presets, aggregatorName).Returns?
    ensures var key := RunKey(experiment.value.name, experiment.value.version);
            var shown := Shown(Timeline(Found(GetCommits(logOut, logErr).value, show, parse, key), current.value), machine);
            ListOutcome(experiment, machine, logOut, logErr, show, parse, current, presets, aggregatorName, limit, commitOrder)
            == ScoredOutcome(shown, LookupPreset(presets, aggregatorName).value, limit, commitOrder, CurrentTag(current.value))
  {
  }

  /** With no entry to score, an aggregator that scores every run on its own prints nothing
      and exits with status 0. */
  lemma NothingScored(agg: Aggregator, limit: Option<int>, commitOrder: bool)
    requires agg.Independent?
    ensures ScoredOutcome([], agg, limit, commitOrder, "") == Raises(Exit(0))
  {
    assert BenchmarksOf([]) == [];
    assert AggregateOf(agg, []) == Returns([]);
    assert Annotated([], []) == Returns([]);
    NothingArranged(LowerIsBetter(agg), commitOrder, limit, "");
  }

  lemma NothingFound(commits: seq<Commit>, show: string -> Option<string>, parse: string -> YamlLoad, key: RunKey)
    requires forall c :: c in commits ==> CommitRun(show(c.hash), parse, key).Failed?
    ensures Found(commits, show, parse, key) == []
  {
    FoundExactly(commits, show, parse, key);
    var found := Found(commits, show, parse, key);
    assert forall cd :: cd !in found;
  }

  lemma NothingArranged(lowerIsBetter: bool, commitOrder: bool, limit: Option<int>, currentTag: string)
    ensures Arranged([], lowerIsBetter, commitOrder, limit, currentTag) == []
  {
    var o := Ordered([], lowerIsBetter, commitOrder);
    assert o == [];
  }

  /** The error cases that end `list` before anything is printed. */
  lemma ListErrors(experiment: Option<Experiment>, machine: string, logOut: string, logErr: string,
                   show: string -> Option<string>, parse: string -> YamlLoad,
                   current: Raising<Retrieved<BenchmarkRun>>, presets: map<string, Aggregator>,
                   aggregatorName: Option<string>, limit: Option<int>, commitOrder: bool)
    ensures experiment.None? ==>
              ListOutcome(experiment, machine, logOut, logErr, show, parse, current, presets,
                          aggregatorName, limit, commitOrder) == Raises(RuntimeError("Experiment missing"))
    ensures experiment.Some? && logErr != "" ==>
              ListOutcome(experiment, machine, logOut, logErr, show, parse, current, presets,
                          aggregatorName, limit, commitOrder) == Raises(RuntimeError("Error querying commit list"))
    ensures experiment.Some? && logErr == "" && current.Raises? ==>
              ListOutcome(experiment, machine, logOut, logErr, show, parse, current, presets,
                          aggregatorName, limit, commitOrder) == Raises(current.error)
    ensures experiment.Some? && logErr == "" && current.Returns? && LookupPreset(presets, aggregatorName).Raises? ==>
              ListOutcome(experiment, machine, logOut, logErr, show, parse, current, presets,
                          aggregatorName, limit, commitOrder) == Raises(KeyError)
  {
  }
}
