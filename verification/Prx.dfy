/**
 The engine's side of a conversation: its session, the job that runs a turn, the decision a turn
 waits for, and the event of a finished turn until it is acknowledged.
 */
module Prx {
  import opened Basics
  import opened ApprovalTrace

  datatype Reason =
    | Busy | RequestTimeout | TurnTimeout | Refused | AuthorizationMismatch
    | ApprovalUnavailable | ApprovalTimeout | ApprovalDeclined

  /** How a request to the engine fails. */
  datatype Failing = Unavailable | Timeout | Rejected | Invalid
  /** How the engine answers a decision. */
  datatype Decided = Done | Undone(failing: Failing)

  datatype Job = Job(id: string, poll: string, cancel: string, message: string, deadline: nat)
  /** What a human is asked to approve; the summary of the arguments is as it is stored. */
  datatype Question = Question(tool: string, summary: string, effect: string, digest: string, deadline: nat)
  datatype Completed =
    | Reply(message: string, text: string)
    | Silent(message: string)
    | Approval(message: string, decision: string, question: Question)
    | Failure(message: string, reason: Reason)

  datatype Engine = Engine(
    sessions: map<Conversation, string>,
    jobs: map<Conversation, Job>,
    completed: map<Conversation, Completed>,
    pending: map<Conversation, string>)

  const EMPTY := Engine(map[], map[], map[], map[])
  const MAX_TEXT_BYTES: nat := 16384

  // Identifiers and texts

  /** The length of a string in UTF-8. */
  function Bytes(s: string): (r: nat)
    ensures r >= |s|
  {
    if s == "" then 0 else Width(s[0]) + Bytes(s[1..])
  }

  function Width(c: char): (r: nat)
    ensures 1 <= r <= 4
  {
    if c < '\U{80}' then 1 else if c < '\U{800}' then 2 else if c < '\U{10000}' then 3 else 4
  }

  predicate Control(c: char) {
    c < ' ' || '\U{7f}' <= c <= '\U{9f}'
  }

  /** The directional marks of Unicode. */
  predicate Directional(c: char) {
    c == '\U{61c}' || '\U{200e}' <= c <= '\U{200f}' || '\U{202a}' <= c <= '\U{202e}' || '\U{2066}' <= c <= '\U{2069}'
  }

  predicate Alphanumeric(c: char) {
    'a' <= c <= 'z' || 'A' <= c <= 'Z' || '0' <= c <= '9'
  }

  predicate Plain(s: string) {
    forall c :: c in s ==> !Control(c)
  }

  predicate ValidId(s: string) {
    s != "" && Bytes(s) <= 1024 && Plain(s)
  }

  predicate ValidSegment(s: string) {
    ValidId(s) && forall c :: c in s ==> Alphanumeric(c) || c in "_-"
  }

  /** No segment between slashes is `.` or `..`. */
  predicate NoDots(path: string, from: nat)
    requires from <= |path|
    decreases |path| - from
  {
    var end := NextSlash(path, from);
    path[from..end] != "." && path[from..end] != ".." && (end < |path| ==> NoDots(path, end + 1))
  }

  function NextSlash(path: string, from: nat): (r: nat)
    requires from <= |path|
    ensures from <= r <= |path|
    decreases |path| - from
  {
    if from == |path| || path[from] == '/' then from else NextSlash(path, from + 1)
  }

  predicate ValidPath(s: string) {
    && "/api/" <= s && Bytes(s) <= 2048 && Plain(s) && NoDots(s, 0)
    && (forall i :: 0 <= i < |s| - 1 ==> s[i] != '/' || s[i + 1] != '/')
    && (forall c :: c in s ==> c !in "%\\?#")
  }

  predicate SafeText(s: string) {
    forall c :: c in s ==> (Control(c) ==> c == '\n') && !Directional(c)
  }

  predicate ValidQuestion(q: Question) {
    && q.tool != "" && Bytes(q.tool) <= 96 && (forall c :: c in q.tool ==> Alphanumeric(c) || c in "._:-")
    && q.effect != "" && Bytes(q.effect) <= 128 && Plain(q.effect)
    && q.digest != "" && Bytes(q.digest) <= 256 && (forall c :: c in q.digest ==> Alphanumeric(c) || c in "_-")
    && Bytes(q.summary) <= 4096
  }

  predicate ValidJob(job: Job) {
    ValidId(job.id) && ValidId(job.message) && ValidPath(job.poll) && ValidPath(job.cancel)
  }

  predicate ValidCompleted(e: Completed) {
    && ValidId(e.message)
    && (e.Reply? ==> Bytes(e.text) <= MAX_TEXT_BYTES && SafeText(e.text))
    && (e.Approval? ==> ValidSegment(e.decision) && ValidQuestion(e.question))
  }

  /** No turn can be taken for the conversation. */
  predicate IsBusy(e: Engine, c: Conversation) {
    c in e.jobs || c in e.pending || c in e.completed
  }

  /** The conversations that clean-up looks at. */
  function Active(e: Engine): (r: set<Conversation>) {
    e.sessions.Keys + e.jobs.Keys + e.completed.Keys + e.pending.Keys
  }

  /** One conversation: nothing without a session, no job beside a decision or an unread event, an
      unread event beside a decision asks for it, and only what can be restored. */
  ghost predicate CellOk(e: Engine, c: Conversation) {
    && (IsBusy(e, c) ==> c in e.sessions)
    && (c in e.jobs ==> c !in e.pending && c !in e.completed && ValidJob(e.jobs[c]))
    && (c in e.sessions ==> ValidId(c) && ValidSegment(e.sessions[c]))
    && (c in e.completed ==> ValidCompleted(e.completed[c]) && e.completed[c] != Failure(e.completed[c].message, Busy))
    && (c in e.pending ==> ValidSegment(e.pending[c]))
    && (c in e.pending && c in e.completed ==> e.completed[c].Approval? && e.completed[c].decision == e.pending[c])
  }

  ghost predicate EngineOk(e: Engine, max: nat) {
    |e.sessions| <= max && forall c :: CellOk(e, c)
  }

  // Restoring a checkpoint

  function Earlier(a: nat, b: nat): (r: nat) {
    if a < b then a else b
  }

  function Sooner(q: Question, latest: nat): (r: Question) {
    q.(deadline := Earlier(q.deadline, latest))
  }

  function Clamp(e: Engine, now: nat, turn: nat, approval: nat): (r: Engine) {
    e.(jobs := map c | c in e.jobs :: e.jobs[c].(deadline := Earlier(e.jobs[c].deadline, now + turn)),
       completed := map c | c in e.completed ::
         if e.completed[c].Approval?
         then e.completed[c].(question := Sooner(e.completed[c].question, now + approval)) else e.completed[c])
  }

  predicate Restorable(e: Engine, max: nat) {
    && |e.sessions| <= max && |e.jobs| <= max && |e.completed| <= max && |e.pending| <= max
    && (forall c :: c in e.pending ==> ValidId(c) && ValidSegment(e.pending[c]))
    && (forall c :: c in e.sessions ==> ValidId(c) && ValidSegment(e.sessions[c]))
    && (forall c :: c in e.jobs ==> ValidId(c) && ValidJob(e.jobs[c]))
    && (forall c :: c in e.completed ==> ValidId(c) && ValidCompleted(e.completed[c]))
  }

  /** The engine on a saved state; `None` when it refuses it. */
  function Restore(saved: Engine, max: nat, now: nat, turn: nat, approval: nat): (r: Option<Engine>) {
    var e := Clamp(saved, now, turn, approval);
    if Restorable(e, max) then Some(e) else None
  }

  lemma SoundRestorable(e: Engine, max: nat)
    requires EngineOk(e, max)
    ensures Restorable(e, max)
  {
    hide ValidId, ValidSegment, ValidJob, ValidCompleted;
    forall c
      ensures IsBusy(e, c) || c in e.sessions ==> c in e.sessions && ValidId(c) && ValidSegment(e.sessions[c])
      ensures (c in e.pending ==> ValidSegment(e.pending[c])) && (c in e.jobs ==> ValidJob(e.jobs[c]))
      ensures c in e.completed ==> ValidCompleted(e.completed[c])
    {
      assert CellOk(e, c);
    }
    Fewer(e.jobs.Keys, e.sessions.Keys);
    Fewer(e.completed.Keys, e.sessions.Keys);
    Fewer(e.pending.Keys, e.sessions.Keys);
  }

  lemma ClampOnly(e: Engine, now: nat, turn: nat, approval: nat)
    ensures var r := Clamp(e, now, turn, approval);
            && r.sessions == e.sessions && r.pending == e.pending
            && r.jobs.Keys == e.jobs.Keys && r.completed.Keys == e.completed.Keys
            && (forall c :: c in e.jobs ==> r.jobs[c] == e.jobs[c].(deadline := r.jobs[c].deadline)
                                            && r.jobs[c].deadline <= e.jobs[c].deadline)
            && (forall c :: c in e.completed && e.completed[c].Approval? ==>
                  && r.completed[c].Approval?
                  && r.completed[c] == e.completed[c].(question := r.completed[c].question)
                  && r.completed[c].question.deadline <= e.completed[c].question.deadline)
            && (forall c :: c in e.completed && !e.completed[c].Approval? ==> r.completed[c] == e.completed[c])
  {
  }

  lemma ClampCell(e: Engine, c: Conversation, now: nat, turn: nat, approval: nat)
    requires CellOk(e, c)
    ensures CellOk(Clamp(e, now, turn, approval), c)
  {
    hide ValidId, ValidSegment, ValidPath;
  }

  /** Whatever a sound engine saves, it restores, with no deadline moved later. */
  lemma RestoreAccepts(e: Engine, max: nat, now: nat, turn: nat, approval: nat)
    requires EngineOk(e, max)
    ensures var r := Restore(e, max, now, turn, approval);
            && r.Some? && EngineOk(r.value, max)
            && r.value.sessions == e.sessions && r.value.pending == e.pending
            && r.value.jobs.Keys == e.jobs.Keys && r.value.completed.Keys == e.completed.Keys
            && (forall c :: c in e.jobs ==> r.value.jobs[c] == e.jobs[c].(deadline := r.value.jobs[c].deadline)
                                            && r.value.jobs[c].deadline <= e.jobs[c].deadline)
            && (forall c :: c in e.completed && e.completed[c].Approval? ==>
                  && r.value.completed[c].Approval?
                  && r.value.completed[c] == e.completed[c].(question := r.value.completed[c].question)
                  && r.value.completed[c].question.deadline <= e.completed[c].question.deadline)
            && (forall c :: c in e.completed && !e.completed[c].Approval? ==> r.value.completed[c] == e.completed[c])
  {
    hide Clamp, CellOk, Restorable;
    var r := Clamp(e, now, turn, approval);
    ClampOnly(e, now, turn, approval);
    forall c ensures CellOk(r, c) {
      ClampCell(e, c, now, turn, approval);
    }
    SoundRestorable(r, max);
  }

  // Changes at one conversation

  /** A conversation's entries are the same in both. */
  ghost predicate SameAt(e: Engine, f: Engine, c: Conversation) {
    && (c in e.sessions <==> c in f.sessions) && (c in e.sessions ==> f.sessions[c] == e.sessions[c])
    && (c in e.jobs <==> c in f.jobs) && (c in e.jobs ==> f.jobs[c] == e.jobs[c])
    && (c in e.completed <==> c in f.completed) && (c in e.completed ==> f.completed[c] == e.completed[c])
    && (c in e.pending <==> c in f.pending) && (c in e.pending ==> f.pending[c] == e.pending[c])
  }

  /** `f` differs from `e` at most at `c`. */
  ghost predicate OnlyAt(e: Engine, f: Engine, c: Conversation) {
    forall d :: d != c ==> SameAt(e, f, d)
  }

  lemma ChangeAt(e: Engine, f: Engine, c: Conversation, max: nat)
    requires EngineOk(e, max) && OnlyAt(e, f, c) && CellOk(f, c) && |f.sessions| <= max
    ensures EngineOk(f, max)
  {
    forall d ensures CellOk(f, d) {
      if d != c {
        assert SameAt(e, f, d) && CellOk(e, d);
      }
    }
  }

  lemma OnlyAtTwice(e: Engine, f: Engine, g: Engine, c: Conversation)
    requires OnlyAt(e, f, c) && OnlyAt(f, g, c)
    ensures OnlyAt(e, g, c)
  {
    forall d | d != c ensures SameAt(e, g, d) {
      assert SameAt(e, f, d) && SameAt(f, g, d);
    }
  }

  // Single changes

  function WithSession(e: Engine, c: Conversation,
                       session: string): (r: Engine) { e.(sessions := e.sessions[c := session]) }

  function WithoutSession(e: Engine, c: Conversation): (r: Engine) { e.(sessions := e.sessions - {c}) }

  function WithJob(e: Engine, c: Conversation, job: Job): (r: Engine) { e.(jobs := e.jobs[c := job]) }

  function WithoutJob(e: Engine, c: Conversation): (r: Engine) { e.(jobs := e.jobs - {c}) }

  function WithCompleted(e: Engine, c: Conversation,
                         event: Completed): (r: Engine) { e.(completed := e.completed[c := event]) }

  function WithoutCompleted(e: Engine, c: Conversation): (r: Engine) { e.(completed := e.completed - {c}) }

  function WithPending(e: Engine, c: Conversation,
                       decision: string): (r: Engine) { e.(pending := e.pending[c := decision]) }

  function WithoutPending(e: Engine, c: Conversation): (r: Engine) { e.(pending := e.pending - {c}) }

  function Cleared(e: Engine, c: Conversation): (r: Engine) {
    WithoutSession(WithoutCompleted(WithoutPending(WithoutJob(e, c), c), c), c)
  }

  lemma OnlyPending(e: Engine, c: Conversation)
    ensures OnlyAt(e, WithoutPending(e, c), c)
  {
  }

  lemma OnlyCompleted(e: Engine, c: Conversation)
    ensures OnlyAt(e, WithoutCompleted(e, c), c)
  {
  }

  lemma OnlySession(e: Engine, c: Conversation)
    ensures OnlyAt(e, WithoutSession(e, c), c)
  {
  }

  lemma OnlyJob(e: Engine, c: Conversation)
    ensures OnlyAt(e, WithoutJob(e, c), c)
  {
  }

  lemma OnlyCleared(e: Engine, c: Conversation)
    ensures OnlyAt(e, Cleared(e, c), c)
    ensures c !in Cleared(e, c).sessions && !IsBusy(Cleared(e, c), c)
  {
    hide OnlyAt;
    OnlyJob(e, c);
    var f := WithoutJob(e, c);
    OnlyPending(f, c);
    var g := WithoutPending(f, c);
    OnlyCompleted(g, c);
    var h := WithoutCompleted(g, c);
    OnlySession(h, c);
    OnlyAtTwice(e, f, g, c);
    OnlyAtTwice(e, g, h, c);
    OnlyAtTwice(e, h, Cleared(e, c), c);
  }

  lemma SessionAdded(e: Engine, c: Conversation, session: string, max: nat)
    requires EngineOk(e, max) && ValidId(c) && ValidSegment(session) && (c in e.sessions || |e.sessions| < max)
    ensures EngineOk(WithSession(e, c, session), max) && OnlyAt(e, WithSession(e, c, session), c)
  {
    var f := WithSession(e, c, session);
    assert CellOk(e, c);
    assert f.sessions.Keys == e.sessions.Keys + {c};
    ChangeAt(e, f, c, max);
  }

  lemma SessionRemoved(e: Engine, c: Conversation, max: nat)
    requires EngineOk(e, max) && !IsBusy(e, c)
    ensures EngineOk(WithoutSession(e, c), max) && OnlyAt(e, WithoutSession(e, c), c)
    ensures c in e.sessions ==> |WithoutSession(e, c).sessions| < |e.sessions|
  {
    hide OnlyAt, ValidId, ValidSegment, ValidCompleted;
    OnlySession(e, c);
    var f := WithoutSession(e, c);
    assert CellOk(e, c);
    assert f.sessions.Keys == e.sessions.Keys - {c};
    Fewer(f.sessions.Keys, e.sessions.Keys);
    ChangeAt(e, f, c, max);
  }

  lemma JobAdded(e: Engine, c: Conversation, job: Job, max: nat)
    requires EngineOk(e, max) && c in e.sessions && c !in e.pending && c !in e.completed && ValidJob(job)
    ensures EngineOk(WithJob(e, c, job), max) && OnlyAt(e, WithJob(e, c, job), c)
  {
    assert CellOk(e, c);
    ChangeAt(e, WithJob(e, c, job), c, max);
  }

  lemma PendingRemoved(e: Engine, c: Conversation, max: nat)
    requires EngineOk(e, max)
    ensures EngineOk(WithoutPending(e, c), max) && OnlyAt(e, WithoutPending(e, c), c)
  {
    hide OnlyAt, ValidId, ValidSegment, ValidCompleted;
    OnlyPending(e, c);
    assert CellOk(e, c);
    ChangeAt(e, WithoutPending(e, c), c, max);
  }

  lemma CompletedRemoved(e: Engine, c: Conversation, max: nat)
    requires EngineOk(e, max)
    ensures EngineOk(WithoutCompleted(e, c), max) && OnlyAt(e, WithoutCompleted(e, c), c)
  {
    hide OnlyAt, ValidId, ValidSegment, ValidCompleted;
    OnlyCompleted(e, c);
    assert CellOk(e, c);
    ChangeAt(e, WithoutCompleted(e, c), c, max);
  }

  lemma ClearedOk(e: Engine, c: Conversation, max: nat)
    requires EngineOk(e, max)
    ensures EngineOk(Cleared(e, c), max) && OnlyAt(e, Cleared(e, c), c)
    ensures c !in Cleared(e, c).sessions && !IsBusy(Cleared(e, c), c)
  {
    hide OnlyAt, ValidId, ValidSegment, ValidCompleted;
    OnlyCleared(e, c);
    var f := Cleared(e, c);
    assert CellOk(e, c);
    assert f.sessions.Keys == e.sessions.Keys - {c};
    Fewer(f.sessions.Keys, e.sessions.Keys);
    ChangeAt(e, f, c, max);
  }

  /** A job ends with an event, together with the decision it waits for if it waits for one. */
  function Finished(e: Engine, c: Conversation, event: Completed): (r: Engine) {
    var f := WithCompleted(WithoutJob(e, c), c, event);
    if event.Approval? then WithPending(f, c, event.decision) else WithoutPending(f, c)
  }

  lemma FinishedThere(e: Engine, c: Conversation, event: Completed)
    requires CellOk(e, c) && c in e.sessions && ValidCompleted(event) && event != Failure(event.message, Busy)
    ensures CellOk(Finished(e, c, event), c) && OnlyAt(e, Finished(e, c, event), c)
    ensures Finished(e, c, event).sessions == e.sessions
  {
    hide ValidId, ValidPath;
  }

  lemma JobFinished(e: Engine, c: Conversation, event: Completed, max: nat)
    requires EngineOk(e, max) && c in e.sessions && ValidCompleted(event) && event != Failure(event.message, Busy)
    ensures EngineOk(Finished(e, c, event), max) && OnlyAt(e, Finished(e, c, event), c)
    ensures Finished(e, c, event).sessions == e.sessions
  {
    hide Finished, CellOk, OnlyAt;
    assert CellOk(e, c);
    FinishedThere(e, c, event);
    ChangeAt(e, Finished(e, c, event), c, max);
  }

  // What the engine does with a turn and with a negative decision

  datatype Created = Made(session: string) | NotMade(failing: Failing)
  /** Answers to the request for a turn: a job, no such session, another status, or none. */
  datatype Posted = Taken(id: string, poll: string, cancel: string) | NotFound | Other | Failed(failing: Failing)
  datatype TurnAnswers = TurnAnswers(created: Created, posted: Posted, again: Created, reposted: Posted)

  /** What asking for a job gives: it runs, no answer, no result, a text, or a question for a human
      with its decision, where the question could be seen. */
  datatype JobAnswer = Running | Silence | Refuses | Says(text: string) | Asks(decision: string, seen: Option<Question>)

  predicate ValidSession(s: string) {
    Bytes(s) <= 256 && ValidSegment(s)
  }

  function NewSession(e: Engine, c: Conversation, max: nat, made: Created): (r: (Engine, Option<Failing>)) {
    if |e.sessions| >= max && c !in e.sessions then (e, Some(Rejected))
    else
      match made
      case Made(s) => if ValidSession(s) then (WithSession(e, c, s), None) else (e, Some(Invalid))
      case NotMade(failing) => (e, Some(failing))
  }

  function Posting(e: Engine, c: Conversation, message: string, deadline: nat,
                   p: Posted): (r: (Engine, Option<Failing>)) {
    match p
    case Taken(id, poll, cancel) =>
      var job := Job(id, poll, cancel, message, deadline);
      if ValidJob(job) then (WithJob(e, c, job), None) else (e, Some(Invalid))
    case NotFound => (e, Some(Rejected))
    case Other => (e, Some(Rejected))
    case Failed(failing) => (e, Some(failing))
  }

  /** A turn on the conversation's session, or on a new one when the engine does not know that. */
  function Submitted(e: Engine, c: Conversation, message: string, deadline: nat, max: nat,
                     t: TurnAnswers): (r: (Engine, Option<Failing>)) {
    var (f, failed) := if c in e.sessions then (e, None) else NewSession(e, c, max, t.created);
    if failed.Some? then (f, failed)
    else if t.posted.NotFound? then
      var (g, again) := NewSession(WithoutSession(f, c), c, max, t.again);
      if again.Some? then (g, again) else Posting(g, c, message, deadline, t.reposted)
    else Posting(f, c, message, deadline, t.posted)
  }

  /** A negative decision is forgotten, however the engine answers. */
  function Declined(e: Engine, c: Conversation, decision: string): (r: Engine) {
    if !ValidSegment(decision) || c in e.jobs || c !in e.sessions then e else WithoutPending(e, c)
  }

  function DeclineAnswer(e: Engine, c: Conversation, decision: string, told: Decided): (r: Decided) {
    if !ValidSegment(decision) then Undone(Invalid)
    else if c in e.jobs || c !in e.sessions then Undone(Rejected)
    else told
  }

  predicate Unreached(told: Decided) {
    told == Undone(Unavailable) || told == Undone(Timeout)
  }

  lemma NewSessionOk(e: Engine, c: Conversation, max: nat, made: Created)
    requires EngineOk(e, max) && ValidId(c)
    ensures var (f, failed) := NewSession(e, c, max, made);
            && EngineOk(f, max) && OnlyAt(e, f, c) && f == e.(sessions := f.sessions)
            && (failed == None ==> c in f.sessions) && (failed.Some? ==> f == e)
  {
    hide EngineOk, OnlyAt, ValidId, ValidSegment;
    Unchanged(e, c);
    var (f, failed) := NewSession(e, c, max, made);
    if failed == None {
      SessionAdded(e, c, made.session, max);
    }
  }

  lemma Unchanged(e: Engine, c: Conversation)
    ensures OnlyAt(e, e, c)
  {
  }

  lemma PostingOk(e: Engine, c: Conversation, message: string, deadline: nat, p: Posted, max: nat)
    requires EngineOk(e, max) && c in e.sessions && !IsBusy(e, c)
    ensures var (f, failed) := Posting(e, c, message, deadline, p);
            && EngineOk(f, max) && OnlyAt(e, f, c)
            && c !in f.pending && c !in f.completed && (failed == None <==> c in f.jobs)
            && (failed == None ==> f.jobs[c] == f.jobs[c].(message := message, deadline := deadline))
  {
    hide EngineOk, OnlyAt, ValidId, ValidPath;
    Unchanged(e, c);
    var (f, failed) := Posting(e, c, message, deadline, p);
    if failed == None {
      JobAdded(e, c, f.jobs[c], max);
    }
  }

  /** A turn starts as a job of this conversation, with its message and deadline, or not at all. */
  lemma SubmittedOk(e: Engine, c: Conversation, message: string, deadline: nat, max: nat, t: TurnAnswers)
    requires EngineOk(e, max) && ValidId(c) && !IsBusy(e, c)
    ensures var (f, failed) := Submitted(e, c, message, deadline, max, t);
            && EngineOk(f, max) && OnlyAt(e, f, c)
            && c !in f.pending && c !in f.completed && (failed == None <==> c in f.jobs)
            && (failed == None ==> f.jobs[c] == f.jobs[c].(message := message, deadline := deadline))
  {
    hide EngineOk, OnlyAt, ValidId, NewSession, Posting;
    Unchanged(e, c);
    NewSessionOk(e, c, max, t.created);
    var (f, failed) := if c in e.sessions then (e, None) else NewSession(e, c, max, t.created);
    if failed == None {
      if t.posted.NotFound? {
        SessionRemoved(f, c, max);
        var w := WithoutSession(f, c);
        NewSessionOk(w, c, max, t.again);
        var (g, again) := NewSession(w, c, max, t.again);
        OnlyAtTwice(e, f, w, c);
        OnlyAtTwice(e, w, g, c);
        if again == None {
          PostingOk(g, c, message, deadline, t.reposted, max);
          OnlyAtTwice(e, g, Posting(g, c, message, deadline, t.reposted).0, c);
        }
      } else {
        PostingOk(f, c, message, deadline, t.posted, max);
        OnlyAtTwice(e, f, Posting(f, c, message, deadline, t.posted).0, c);
      }
    }
  }

  lemma DeclinedOk(e: Engine, c: Conversation, decision: string, max: nat)
    requires EngineOk(e, max)
    ensures EngineOk(Declined(e, c, decision), max) && OnlyAt(e, Declined(e, c, decision), c)
    ensures Declined(e, c, decision).completed == e.completed && Declined(e, c, decision).jobs == e.jobs
  {
    hide EngineOk, OnlyAt, ValidSegment;
    Unchanged(e, c);
    PendingRemoved(e, c, max);
  }
}
