/** What "CI passed" and "the latest work is approved" mean, read off the rows' own columns. */
module TaskChecks {
  import opened Lists
  import opened Models
  import opened TaskMachine

  // --- CI ---

  /** The results about the Task's latest push: those that name its head, and, when a result or the Task names no
      commit, those that came no earlier than the latest build began. */
  ghost function About(cs: seq<Check>, head: string, began: Option<Time>): set<nat> {
    set i | 0 <= i < |cs| &&
      (if head == "" || cs[i].commit == "" then began.None? || cs[i].updatedAt >= began.value
       else EqualFold(cs[i].commit, head))
  }

  /** The result that speaks for its name: the one updated last, the first listed among equals. */
  ghost predicate Speaks(cs: seq<Check>, about: set<nat>, i: int) {
    && 0 <= i < |cs| && i in about
    && forall j :: j in about && j < |cs| && cs[j].name == cs[i].name && j != i ==>
         cs[j].updatedAt < cs[i].updatedAt || (cs[j].updatedAt == cs[i].updatedAt && i < j)
  }

  function Began(build: Option<Run>): Option<Time> {
    if build.Some? then build.value.startedAt else None
  }

  ghost predicate SomeSays(cs: seq<Check>, about: set<nat>, status: CheckStatus) {
    exists i :: Speaks(cs, about, i) && cs[i].status == status
  }

  ghost predicate AllSay(cs: seq<Check>, about: set<nat>, status: CheckStatus) {
    forall i :: Speaks(cs, about, i) ==> cs[i].status == status
  }

  /** Without any CI a Task passes. Otherwise it passes exactly when there is a result about the latest push and the
      newest one of every name is a success; it fails exactly when one of those is a failure; and it waits exactly
      when nothing is reported about the push, or none of them failed and one is pending. */
  lemma CiExactlyWhen(cs: seq<Check>, head: string, build: Option<Run>)
    ensures cs == [] ==> CiState(cs, head, build) == CheckSuccess
    ensures var about := About(cs, head, Began(build));
      cs != [] ==>
        match CiState(cs, head, build)
        case CheckSuccess => about != {} && AllSay(cs, about, CheckSuccess)
        case CheckFailure => SomeSays(cs, about, CheckFailure)
        case CheckPending =>
          about == {} || (SomeSays(cs, about, CheckPending) && !SomeSays(cs, about, CheckFailure))
    ensures var about := About(cs, head, Began(build));
      cs != [] && about != {} ==> exists i :: Speaks(cs, about, i)
  {
    var about := About(cs, head, Began(build));
    RelevantIsAbout(cs, head, build);
    SameSpeakers(cs, head, build);
    if about != {} {
      var i :| i in about;
      assert Relevant(cs[i], head, build);
      SomebodySpeaks(cs, about, i);
    }
    assert forall i :: Speaks(cs, about, i) ==>
             cs[i].status == CheckSuccess || cs[i].status == CheckFailure || cs[i].status == CheckPending;
  }

  lemma SameSpeakers(cs: seq<Check>, head: string, build: Option<Run>)
    ensures forall status ::
      SomeLatest(cs, head, build, status) <==> SomeSays(cs, About(cs, head, Began(build)), status)
  {
    LatestSpeaks(cs, head, build);
  }

  /** One that is outdone by another need not be asked. */
  lemma SpeaksAmongMore(cs: seq<Check>, about: set<nat>, i: nat, j: nat, l: int)
    requires i in about && j in about && i < |cs| && j < |cs| && i != j && cs[j].name == cs[i].name
    requires cs[i].updatedAt < cs[j].updatedAt || (cs[i].updatedAt == cs[j].updatedAt && j < i)
    requires Speaks(cs, about - {i}, l)
    ensures Speaks(cs, about, l)
  {}

  /** Some result speaks for the name of the i-th. */
  lemma {:induction false} SomebodySpeaks(cs: seq<Check>, about: set<nat>, i: nat)
    requires i in about && forall j :: j in about ==> j < |cs|
    ensures exists l :: Speaks(cs, about, l)
    decreases about
  {
    if !Speaks(cs, about, i) {
      var j :| j in about && j < |cs| && cs[j].name == cs[i].name && j != i
               && !(cs[j].updatedAt < cs[i].updatedAt || (cs[j].updatedAt == cs[i].updatedAt && i < j));
      SomebodySpeaks(cs, about - {i}, j);
      var l :| Speaks(cs, about - {i}, l);
      SpeaksAmongMore(cs, about, i, j, l);
    }
  }

  lemma RelevantIsAbout(cs: seq<Check>, head: string, build: Option<Run>)
    ensures forall i :: 0 <= i < |cs| ==> (i in About(cs, head, Began(build)) <==> Relevant(cs[i], head, build))
  {}

  lemma LatestSpeaks(cs: seq<Check>, head: string, build: Option<Run>)
    ensures forall i :: 0 <= i < |cs| ==>
      (Latest(cs, i, head, build) <==> Speaks(cs, About(cs, head, Began(build)), i))
  {
    RelevantIsAbout(cs, head, build);
  }

  /** The results but the k-th. */
  function Without(cs: seq<Check>, k: nat): seq<Check>
    requires k < |cs|
  {
    cs[..k] + cs[k + 1..]
  }

  lemma StillLatest(cs: seq<Check>, k: nat, head: string, build: Option<Run>, i: nat)
    requires k < |cs| && head != "" && cs[k].commit != "" && !EqualFold(cs[k].commit, head)
    requires i < |cs| - 1
    ensures Latest(Without(cs, k), i, head, build) <==> Latest(cs, if i < k then i else i + 1, head, build)
  {
    var less := Without(cs, k);
    var at := if i < k then i else i + 1;
    assert less[i] == cs[at];
    if Latest(less, i, head, build) {
      forall j | 0 <= j < |cs| && cs[j].name == cs[at].name && Relevant(cs[j], head, build)
        ensures cs[j].updatedAt < cs[at].updatedAt || (cs[j].updatedAt == cs[at].updatedAt && at <= j)
      {
        assert j != k && less[if j < k then j else j - 1] == cs[j];
      }
    }
    if Latest(cs, at, head, build) {
      forall j | 0 <= j < |less| && less[j].name == less[i].name && Relevant(less[j], head, build)
        ensures less[j].updatedAt < less[i].updatedAt || (less[j].updatedAt == less[i].updatedAt && i <= j)
      {
        assert less[j] == cs[if j < k then j else j + 1];
      }
    }
  }

  lemma SameRow(cs: seq<Check>, k: nat, i: nat)
    requires k < |cs| && i < |cs| - 1
    ensures Without(cs, k)[i] == cs[if i < k then i else i + 1]
  {}

  lemma SameLatest(cs: seq<Check>, k: nat, head: string, build: Option<Run>, status: CheckStatus)
    requires k < |cs| && head != "" && cs[k].commit != "" && !EqualFold(cs[k].commit, head)
    ensures SomeLatest(Without(cs, k), head, build, status) <==> SomeLatest(cs, head, build, status)
  {
    if SomeLatest(Without(cs, k), head, build, status) {
      var i :| 0 <= i < |Without(cs, k)| && Latest(Without(cs, k), i, head, build)
          && Without(cs, k)[i].status == status;
      StillLatest(cs, k, head, build, i);
      SameRow(cs, k, i);
    }
    if SomeLatest(cs, head, build, status) {
      var at :| 0 <= at < |cs| && Latest(cs, at, head, build) && cs[at].status == status;
      assert at != k;
      var i := if at < k then at else at - 1;
      StillLatest(cs, k, head, build, i);
      SameRow(cs, k, i);
      assert Latest(Without(cs, k), i, head, build) && Without(cs, k)[i].status == status;
    }
  }

  lemma SameRelevant(cs: seq<Check>, k: nat, head: string, build: Option<Run>)
    requires k < |cs| && head != "" && cs[k].commit != "" && !EqualFold(cs[k].commit, head)
    ensures (exists i :: 0 <= i < |cs| && Relevant(cs[i], head, build))
       <==> (exists i :: 0 <= i < |Without(cs, k)| && Relevant(Without(cs, k)[i], head, build))
  {
    var less := Without(cs, k);
    if i :| 0 <= i < |cs| && Relevant(cs[i], head, build) {
      assert less[if i < k then i else i - 1] == cs[i];
    }
    if i :| 0 <= i < |less| && Relevant(less[i], head, build) {
      assert cs[if i < k then i else i + 1] == less[i];
    }
  }

  /** A result about another push is ignored: as long as some result is left, dropping it changes nothing. */
  lemma OtherPushIgnored(cs: seq<Check>, k: nat, head: string, build: Option<Run>)
    requires k < |cs| && |cs| > 1 && head != "" && cs[k].commit != "" && !EqualFold(cs[k].commit, head)
    ensures CiState(Without(cs, k), head, build) == CiState(cs, head, build)
  {
    SameRelevant(cs, k, head, build);
    SameLatest(cs, k, head, build, CheckFailure);
    SameLatest(cs, k, head, build, CheckPending);
  }

  // --- approval ---

  /** Row i is the newest listed Run of its kind that succeeded. */
  ghost predicate NewestDone(runs: seq<Run>, i: int) {
    && 0 <= i < |runs| && runs[i].status == Succeeded
    && forall j :: 0 <= j < i ==> runs[j].kind != runs[i].kind || runs[j].status != Succeeded
  }

  /** The latest work is approved exactly when the newest succeeded review says so and is about that work: the head's
      very commit when both are named, else no newer build succeeded. */
  lemma ApprovedExactlyWhen(s: State)
    ensures Approved(s) <==>
      exists v :: NewestDone(s.runs, v) && s.runs[v].kind == Review && s.runs[v].verdict == Approve
        && if s.runs[v].commit != "" && s.task.head != "" then s.runs[v].commit == s.task.head
           else forall b :: NewestDone(s.runs, b) && s.runs[b].kind == Build ==>
                  s.runs[v].createdAt >= s.runs[b].createdAt
  {
    NewestIsFirst(s.runs, DoneReview, Review);
    NewestIsFirst(s.runs, DoneBuild, Build);
  }

  lemma {:induction false} NewestIsFirst(runs: seq<Run>, done: Run -> bool, kind: RunKind)
    requires forall r :: done(r) <==> r.kind == kind && r.status == Succeeded
    ensures First(runs, done).Some? <==> exists i :: NewestDone(runs, i) && runs[i].kind == kind
    ensures forall i :: NewestDone(runs, i) && runs[i].kind == kind ==> First(runs, done) == Some(runs[i])
  {
    forall i | NewestDone(runs, i) && runs[i].kind == kind
      ensures First(runs, done) == Some(runs[i])
    {
      FirstAt(runs, done, i);
    }
    if First(runs, done).Some? {
      var i := FirstIsNewest(runs, done, kind);
    }
  }

  lemma {:induction false} FirstIsNewest(runs: seq<Run>, done: Run -> bool, kind: RunKind) returns (i: nat)
    requires forall r :: done(r) <==> r.kind == kind && r.status == Succeeded
    requires First(runs, done).Some?
    ensures NewestDone(runs, i) && runs[i].kind == kind
  {
    if done(runs[0]) {
      i := 0;
    } else {
      i := FirstIsNewest(runs[1..], done, kind);
      assert forall j :: 1 <= j < i + 1 ==> runs[j] == runs[1..][j - 1];
      i := i + 1;
    }
  }
}
