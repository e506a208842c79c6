/** Hot model selection of one run: commands, the control record, and the bindings of logical calls. */
module ModelSelection {
  import opened Domain

  type Profile = nat
  type CommandId = nat
  type LogicalId = nat

  datatype CommandStatus = Requested | Superseded | Applied | Rejected | NotApplied

  datatype Command = Command(revision: nat, profile: Profile, status: CommandStatus)

  datatype Control = Control(
    revision: nat, effective: nat, desired: Profile, effectiveProfile: Profile, status: Option<CommandStatus>,
    command: Option<CommandId>)

  /** What `candidate` hands to the composing of a view. */
  datatype Candidate = Candidate(logical: LogicalId, revision: nat, profile: Profile)

  datatype Bound = Bound(candidate: Candidate, view: nat, token: nat)

  /** `log` lists the bound calls in the order of binding; `chosen` the profile desired at each control revision. */
  datatype Selection = Selection(
    control: Control, commands: map<CommandId, Command>, bindings: map<LogicalId, Bound>, log: seq<LogicalId>,
    chosen: seq<Profile>, ended: bool)

  function Initial(profile: Profile): Selection {
    Selection(Control(0, 0, profile, profile, None, None), map[], map[], [], [profile], false)
  }

  // ---------------------------------------------------------------- the operations

  function Mark(m: map<CommandId, Command>, c: Option<CommandId>, status: CommandStatus): map<CommandId, Command> {
    if c.Some? && c.value in m then m[c.value := m[c.value].(status := status)] else m
  }

  /** `select`: a command still waiting is superseded by the new one. */
  function SelectIn(s: Selection, id: CommandId, profile: Profile, expected: nat): Result<Selection> {
    if s.ended then Err(RunStopped)
    else if s.control.revision != expected then Err(RevisionConflict)
    else if id in s.commands then Err(Integrity)
    else
      var marked :=
        if s.control.status == Some(Requested) then Mark(s.commands, s.control.command, Superseded) else s.commands;
      var revision := s.control.revision + 1;
      Ok(s.(commands := marked[id := Command(revision, profile, Requested)],
            control := s.control.(revision := revision, desired := profile, status := Some(Requested),
                                  command := Some(id)),
            chosen := s.chosen + [profile]))
  }

  /** `candidate`: the binding of a call that has one, or the profile now desired. */
  function CandidateOf(s: Selection, logical: LogicalId): Candidate {
    if logical in s.bindings then s.bindings[logical].candidate
    else Candidate(logical, s.control.revision, s.control.desired)
  }

  /** `bind`: None asks the caller to compose again, because the selection changed meanwhile. */
  function BindIn(s: Selection, c: Candidate, view: nat, token: nat): Result<(Selection, Option<Bound>)> {
    if s.ended then Err(RunStopped)
    else if c.logical in s.bindings then Ok((s, Some(s.bindings[c.logical])))
    else if c.revision != s.control.revision then Ok((s, None))
    else
      var b := Bound(c, view, token);
      Ok((s.(bindings := s.bindings[c.logical := b], log := s.log + [c.logical],
             control := s.control.(effective := c.revision, effectiveProfile := c.profile, status := Some(Applied)),
             commands := Mark(s.commands, s.control.command, Applied)),
          Some(b)))
  }

  function RejectIn(s: Selection, c: Candidate): Result<Selection> {
    if s.ended then Err(RunStopped)
    else if c.revision != s.control.revision then Ok(s)
    else Ok(s.(control := s.control.(status := Some(Rejected)),
               commands := Mark(s.commands, s.control.command, Rejected)))
  }

  /** `finish`, when the run has ended. */
  function FinishIn(s: Selection): Selection {
    if s.control.status == Some(Requested)
    then s.(ended := true, control := s.control.(status := Some(NotApplied)),
            commands := Mark(s.commands, s.control.command, NotApplied))
    else s.(ended := true)
  }

  // ---------------------------------------------------------------- what they keep

  /** A candidate carries the profile that was desired at its revision. */
  predicate Issued(s: Selection, c: Candidate) {
    c.revision < |s.chosen| && c.profile == s.chosen[c.revision]
  }

  /** Commands belong to revisions, only the latest one is open, and the control record has its status. */
  ghost predicate CommandsOk(c: Control, commands: map<CommandId, Command>, ended: bool) {
    && (c.command.Some? ==> c.command.value in commands)
    && (forall k :: k in commands && c.command != Some(k) ==>
          commands[k].revision < c.revision && !commands[k].status.NotApplied? && !commands[k].status.Requested?)
    && (c.command.Some? ==>
          && commands[c.command.value].revision == c.revision && !commands[c.command.value].status.Superseded?
          && (commands[c.command.value].status.NotApplied? ==> ended)
          && c.status == Some(commands[c.command.value].status))
  }

  predicate Profiles(c: Control, chosen: seq<Profile>) {
    && |chosen| == c.revision + 1 && chosen[c.revision] == c.desired
    && c.effective <= c.revision && c.effectiveProfile == chosen[c.effective]
  }

  /** Calls are bound once, in the order of the revisions they are bound to. */
  ghost predicate Logged(log: seq<LogicalId>, bindings: map<LogicalId, Bound>, chosen: seq<Profile>, effective: nat) {
    && (forall i :: 0 <= i < |log| ==> log[i] in bindings)
    && (forall i, j :: 0 <= i < j < |log| ==> log[i] != log[j])
    && (forall i, j :: 0 <= i < j < |log| ==>
          bindings[log[i]].candidate.revision <= bindings[log[j]].candidate.revision)
    && (forall l :: l in bindings ==>
          && l in log && bindings[l].candidate.logical == l && bindings[l].candidate.revision <= effective
          && bindings[l].candidate.revision < |chosen|
          && bindings[l].candidate.profile == chosen[bindings[l].candidate.revision])
  }

  ghost predicate SelectionInv(s: Selection) {
    && CommandsOk(s.control, s.commands, s.ended)
    && Profiles(s.control, s.chosen)
    && Logged(s.log, s.bindings, s.chosen, s.control.effective)
  }

  /** Nothing bound changes; a command that was superseded or not applied stays so. */
  ghost predicate SelectionStep(s: Selection, t: Selection) {
    && (forall l :: l in s.bindings ==> l in t.bindings && t.bindings[l] == s.bindings[l])
    && s.log <= t.log && s.chosen <= t.chosen
    && s.control.revision <= t.control.revision && s.control.effective <= t.control.effective
    && (s.ended ==> t.ended)
    && (forall k :: k in s.commands ==> k in t.commands && t.commands[k].revision == s.commands[k].revision)
    && (forall k :: k in s.commands && (s.commands[k].status.Superseded? || s.commands[k].status.NotApplied?)
          ==> t.commands[k].status == s.commands[k].status)
  }

  datatype SelectionEvent =
    | Select(id: CommandId, profile: Profile, expected: nat)
    | Bind(candidate: Candidate, view: nat, token: nat)
    | Reject(rejected: Candidate)
    | Finish

  function ApplySelection(s: Selection, e: SelectionEvent): Selection {
    match e
    case Select(id, profile, expected) =>
      var to := SelectIn(s, id, profile, expected); if to.Ok? then to.value else s
    case Bind(c, view, token) => var to := BindIn(s, c, view, token); if to.Ok? then to.value.0 else s
    case Reject(c) => var to := RejectIn(s, c); if to.Ok? then to.value else s
    case Finish => FinishIn(s)
  }

  /** The candidates of an event were issued by this run. */
  predicate Honest(s: Selection, e: SelectionEvent) {
    match e
    case Bind(c, _, _) => Issued(s, c)
    case Reject(c) => Issued(s, c)
    case _ => true
  }

  lemma SelectKeeps(s: Selection, id: CommandId, profile: Profile, expected: nat)
    requires SelectionInv(s) && SelectIn(s, id, profile, expected).Ok?
    ensures var t := SelectIn(s, id, profile, expected).value; SelectionInv(t) && SelectionStep(s, t)
  {
    var t := SelectIn(s, id, profile, expected).value;
    assert CommandsOk(t.control, t.commands, t.ended);
    assert Logged(t.log, t.bindings, t.chosen, t.control.effective);
  }

  lemma BoundIsLogged(s: Selection, c: Candidate, b: Bound)
    requires SelectionInv(s) && Issued(s, c) && c.logical !in s.bindings && c.revision == s.control.revision
    requires b.candidate == c
    ensures Logged(s.log + [c.logical], s.bindings[c.logical := b], s.chosen, c.revision)
  {
    hide CommandsOk;
    var n, m := s.log + [c.logical], s.bindings[c.logical := b];
    forall l | l in m ensures l in n {
      assert l in s.log || l == n[|s.log|];
    }
  }

  lemma BindKeeps(s: Selection, c: Candidate, view: nat, token: nat)
    requires SelectionInv(s) && Issued(s, c) && BindIn(s, c, view, token).Ok?
    ensures var t := BindIn(s, c, view, token).value.0; SelectionInv(t) && SelectionStep(s, t)
  {
    hide CommandsOk, Logged, SelectionStep, Mark;
    if c.logical !in s.bindings && c.revision == s.control.revision {
      BoundIsLogged(s, c, Bound(c, view, token));
      BoundCommands(s, c);
    }
    BoundStays(s, c, view, token);
  }

  lemma BoundCommands(s: Selection, c: Candidate)
    requires CommandsOk(s.control, s.commands, s.ended) && c.revision == s.control.revision && !s.ended
    ensures CommandsOk(s.control.(effective := c.revision, effectiveProfile := c.profile, status := Some(Applied)),
                       Mark(s.commands, s.control.command, Applied), s.ended)
  {}

  lemma BoundStays(s: Selection, c: Candidate, view: nat, token: nat)
    requires SelectionInv(s) && BindIn(s, c, view, token).Ok?
    ensures SelectionStep(s, BindIn(s, c, view, token).value.0)
  {
    hide Logged;
  }

  lemma SelectionKeeps(s: Selection, e: SelectionEvent)
    requires SelectionInv(s) && Honest(s, e)
    ensures SelectionInv(ApplySelection(s, e)) && SelectionStep(s, ApplySelection(s, e))
  {
    hide Logged, Profiles, SelectIn, BindIn;
    match e
    case Select(id, profile, expected) =>
      if SelectIn(s, id, profile, expected).Ok? {
        SelectKeeps(s, id, profile, expected);
      }
    case Bind(c, view, token) =>
      if BindIn(s, c, view, token).Ok? {
        BindKeeps(s, c, view, token);
      }
    case Reject(c) => ProfilesStay(s, ApplySelection(s, e));
    case Finish => ProfilesStay(s, ApplySelection(s, e));
  }

  lemma ProfilesStay(s: Selection, t: Selection)
    requires Profiles(s.control, s.chosen) && t.chosen == s.chosen
    requires t.control == s.control.(status := t.control.status)
    ensures Profiles(t.control, t.chosen)
  {}

  lemma CandidateIsIssued(s: Selection, logical: LogicalId)
    requires SelectionInv(s)
    ensures Issued(s, CandidateOf(s, logical))
  {}

  lemma IssuedStays(s: Selection, t: Selection, c: Candidate)
    requires SelectionStep(s, t) && Issued(s, c)
    ensures Issued(t, c)
  {}

  /** A call that asks for a candidate, and later binds or rejects it. */
  datatype Move = Ask(logical: LogicalId) | Do(event: SelectionEvent)

  function PlaySelection(s: Selection, asked: set<Candidate>, moves: seq<Move>): Selection
    decreases |moves|
  {
    if moves == [] then s
    else
      match moves[0]
      case Ask(logical) => PlaySelection(s, asked + {CandidateOf(s, logical)}, moves[1..])
      case Do(e) =>
        if (e.Bind? && e.candidate !in asked) || (e.Reject? && e.rejected !in asked)
        then PlaySelection(s, asked, moves[1..])
        else PlaySelection(ApplySelection(s, e), asked, moves[1..])
  }

  lemma {:induction false} PlaySelectionKeeps(s: Selection, asked: set<Candidate>, moves: seq<Move>)
    requires SelectionInv(s) && forall c :: c in asked ==> Issued(s, c)
    ensures SelectionInv(PlaySelection(s, asked, moves)) && SelectionStep(s, PlaySelection(s, asked, moves))
    decreases |moves|
  {
    hide SelectionInv, SelectionStep, Issued, ApplySelection, CandidateOf;
    StaysSelected(s);
    if moves != [] {
      match moves[0]
      case Ask(logical) =>
        CandidateIsIssued(s, logical);
        PlaySelectionKeeps(s, asked + {CandidateOf(s, logical)}, moves[1..]);
      case Do(e) =>
        if (e.Bind? && e.candidate !in asked) || (e.Reject? && e.rejected !in asked) {
          PlaySelectionKeeps(s, asked, moves[1..]);
        } else {
          SelectionKeeps(s, e);
          var t := ApplySelection(s, e);
          forall c | c in asked ensures Issued(t, c) {
            IssuedStays(s, t, c);
          }
          PlaySelectionKeeps(t, asked, moves[1..]);
          SelectionStepsCompose(s, t, PlaySelection(t, asked, moves[1..]));
        }
    }
  }

  lemma StaysSelected(s: Selection)
    ensures SelectionStep(s, s)
  {}

  lemma SelectionStepsCompose(s: Selection, t: Selection, u: Selection)
    requires SelectionStep(s, t) && SelectionStep(t, u)
    ensures SelectionStep(s, u)
  {}

  /** However calls, selections and rejections interleave: each logical call is bound once and for all; bindings in
      order of time have non-decreasing revisions and the profile desired at theirs; the effective revision is at
      most the control revision; a command superseded or not applied is never applied. */
  lemma BindingsAreStable(profile: Profile, before: seq<Move>, after: seq<Move>, asked: set<Candidate>)
    requires var s := PlaySelection(Initial(profile), {}, before); forall c :: c in asked ==> Issued(s, c)
    ensures var s := PlaySelection(Initial(profile), {}, before);
            var t := PlaySelection(s, asked, after);
            && SelectionStep(s, t)
            && t.control.effective <= t.control.revision
            && Logged(t.log, t.bindings, t.chosen, t.control.effective)
  {
    PlaySelectionKeeps(Initial(profile), {}, before);
    PlaySelectionKeeps(PlaySelection(Initial(profile), {}, before), asked, after);
  }

  /** A rejected command is not final: the same revision may still be bound. */
  lemma RejectedMayApply(profile: Profile)
    ensures var moves := [Do(Select(1, profile + 1, 0)), Ask(7), Do(Reject(Candidate(7, 1, profile + 1)))];
            var s := PlaySelection(Initial(profile), {}, moves);
            && 1 in s.commands && s.commands[1].status == Rejected
            && ApplySelection(s, Bind(Candidate(7, 1, profile + 1), 0, 0)).commands[1].status == Applied
  {
    var i := Initial(profile);
    var e := Select(1, profile + 1, 0);
    var s1 := ApplySelection(i, e);
    var c := Candidate(7, 1, profile + 1);
    var s2 := ApplySelection(s1, Reject(c));
    assert CandidateOf(s1, 7) == c;
    assert PlaySelection(s2, {c}, []) == s2;
    assert {} + {c} == {c};
    var m3: seq<Move> := [Do(Reject(c))];
    assert m3[1..] == [];
    assert PlaySelection(s1, {c}, m3) == s2;
    var m2: seq<Move> := [Ask(7), Do(Reject(c))];
    assert m2[1..] == m3;
    assert PlaySelection(s1, {}, m2) == s2;
    var m1: seq<Move> := [Do(e), Ask(7), Do(Reject(c))];
    assert m1[1..] == m2;
    assert PlaySelection(i, {}, m1) == s2;
  }

  /** The event binds a new call to the latest command. */
  predicate Revives(s: Selection, e: SelectionEvent, k: CommandId) {
    && e.Bind? && !s.ended && e.candidate.logical !in s.bindings && e.candidate.revision == s.control.revision
    && s.control.command == Some(k)
  }

  /** A rejected command stays rejected, unless a new call is bound to it while it is the latest one. */
  lemma RejectedStaysIff(s: Selection, e: SelectionEvent, k: CommandId)
    requires SelectionInv(s) && Honest(s, e) && k in s.commands && s.commands[k].status.Rejected?
    ensures k in ApplySelection(s, e).commands
    ensures ApplySelection(s, e).commands[k].status.Rejected? <==> !Revives(s, e, k)
  {
    hide Logged, Profiles;
  }

  lemma {:induction false} RejectedStays(s: Selection, asked: set<Candidate>, moves: seq<Move>, k: CommandId)
    requires SelectionInv(s) && (forall c :: c in asked ==> Issued(s, c))
    requires k in s.commands && s.commands[k].status.Rejected? && (s.ended || s.control.command != Some(k))
    ensures k in PlaySelection(s, asked, moves).commands && PlaySelection(s, asked, moves).commands[k].status.Rejected?
    decreases |moves|
  {
    hide SelectionInv, SelectionStep, Issued, ApplySelection, CandidateOf;
    if moves != [] {
      match moves[0]
      case Ask(logical) =>
        CandidateIsIssued(s, logical);
        RejectedStays(s, asked + {CandidateOf(s, logical)}, moves[1..], k);
      case Do(e) =>
        if (e.Bind? && e.candidate !in asked) || (e.Reject? && e.rejected !in asked) {
          RejectedStays(s, asked, moves[1..], k);
        } else {
          SelectionKeeps(s, e);
          RejectedStaysIff(s, e, k);
          OverStays(s, e, k);
          var t := ApplySelection(s, e);
          forall c | c in asked ensures Issued(t, c) {
            IssuedStays(s, t, c);
          }
          RejectedStays(t, asked, moves[1..], k);
        }
    }
  }

  lemma OverStays(s: Selection, e: SelectionEvent, k: CommandId)
    requires k in s.commands && (s.ended || s.control.command != Some(k))
    ensures ApplySelection(s, e).ended || ApplySelection(s, e).control.command != Some(k)
  {}

  predicate AllIssued(s: Selection, asked: set<Candidate>) {
    forall c :: c in asked ==> Issued(s, c)
  }

  predicate IsRejected(s: Selection, k: CommandId) {
    k in s.commands && s.commands[k].status.Rejected?
  }

  /** Whichever candidates are still held, and whatever is done. */
  ghost predicate AlwaysRejected(s: Selection, k: CommandId) {
    forall asked, moves :: AllIssued(s, asked) ==> IsRejected(PlaySelection(s, asked, moves), k)
  }

  function Above(log: seq<LogicalId>): (l: LogicalId)
    ensures forall x :: x in log ==> x < l
    decreases |log|
  {
    if log == [] then 0
    else
      var rest := Above(log[1..]);
      assert forall x :: x in log ==> x == log[0] || x in log[1..];
      if log[0] < rest then rest else log[0] + 1
  }

  /** A rejection is final exactly once a later command was accepted or the run has ended; until then a call that has
      no binding yet may still apply the command. */
  lemma RejectionFinalIff(s: Selection, k: CommandId)
    requires SelectionInv(s) && k in s.commands && s.commands[k].status.Rejected?
    ensures AlwaysRejected(s, k) <==> s.ended || s.control.command != Some(k)
  {
    if s.ended || s.control.command != Some(k) {
      forall asked: set<Candidate>, moves: seq<Move> | AllIssued(s, asked)
        ensures IsRejected(PlaySelection(s, asked, moves), k)
      {
        RejectedStays(s, asked, moves, k);
      }
    } else {
      var l := Above(s.log);
      var c := CandidateOf(s, l);
      var e := Bind(c, 0, 0);
      RejectedStaysIff(s, e, k);
      var last: seq<Move> := [Do(e)];
      var moves: seq<Move> := [Ask(l), Do(e)];
      assert last[1..] == [] && moves[1..] == last && {} + {c} == {c};
      assert PlaySelection(s, {c}, last) == ApplySelection(s, e);
      assert PlaySelection(s, {}, moves) == ApplySelection(s, e);
      assert AllIssued(s, {}) && !IsRejected(PlaySelection(s, {}, moves), k);
    }
  }

  /** A binding is made at the control revision of its time. */
  lemma BoundAtRevision(s: Selection, e: SelectionEvent, l: LogicalId)
    requires l !in s.bindings && l in ApplySelection(s, e).bindings
    ensures var c := ApplySelection(s, e).bindings[l].candidate;
            && c.revision == s.control.revision && ApplySelection(s, e).control.effective == s.control.revision
            && e.Bind? && e.candidate == c
  {}

  /** The latest command, if there is one, has the status; every other command is as it was. */
  predicate Marked(s: Selection, t: Selection, status: CommandStatus) {
    && t.commands.Keys == s.commands.Keys
    && forall k :: k in s.commands ==>
         t.commands[k] == if s.control.command == Some(k) then s.commands[k].(status := status) else s.commands[k]
  }

  /** A selection is made at the revision that the caller read.  It opens a command, closes the one that was open, and
      touches no binding and nothing of what is in effect. */
  lemma SelectDoes(s: Selection, id: CommandId, profile: Profile, expected: nat)
    requires SelectionInv(s)
    ensures SelectIn(s, id, profile, expected).Ok? <==>
              !s.ended && s.control.revision == expected && id !in s.commands
    ensures SelectIn(s, id, profile, expected).Ok? ==>
              var t := SelectIn(s, id, profile, expected).value;
              && t.control.revision == s.control.revision + 1 && t.control.desired == profile
              && t.control.effective == s.control.effective && t.control.effectiveProfile == s.control.effectiveProfile
              && t.bindings == s.bindings && t.log == s.log && !t.ended
              && t.commands.Keys == s.commands.Keys + {id}
              && t.commands[id] == Command(expected + 1, profile, Requested)
              && forall k :: k in s.commands ==>
                   if s.commands[k].status.Requested? then t.commands[k] == s.commands[k].(status := Superseded)
                   else t.commands[k] == s.commands[k]
  {
    hide Logged, Profiles;
  }

  /** What a call is told when it binds: the binding it has, or the new one, or to compose again. */
  lemma BindDoes(s: Selection, c: Candidate, view: nat, token: nat)
    requires SelectionInv(s)
    ensures BindIn(s, c, view, token).Ok? <==> !s.ended
    ensures BindIn(s, c, view, token).Ok? ==>
              var (t, told) := BindIn(s, c, view, token).value;
              if c.logical in s.bindings then t == s && told == Some(s.bindings[c.logical])
              else if c.revision != s.control.revision then t == s && told.None?
              else
                && told == Some(Bound(c, view, token)) && t.bindings == s.bindings[c.logical := Bound(c, view, token)]
                && t.control.effective == s.control.revision && t.control.effectiveProfile == c.profile
                && t.control.revision == s.control.revision && t.control.desired == s.control.desired
                && t.chosen == s.chosen && Marked(s, t, Applied)
  {
    hide Logged, Profiles;
  }

  /** A rejection marks the command of the revision it was made at, and nothing if there is a later one; the end of the
      run marks a command that is still open. */
  lemma RejectDoes(s: Selection, c: Candidate)
    requires SelectionInv(s)
    ensures RejectIn(s, c).Ok? <==> !s.ended
    ensures RejectIn(s, c).Ok? ==>
              var t := RejectIn(s, c).value;
              && t == s.(control := t.control, commands := t.commands)
              && t.control == s.control.(status := t.control.status)
              && if c.revision == s.control.revision then Marked(s, t, Rejected) else t == s
    ensures var t := FinishIn(s);
            && t.ended && t == s.(control := t.control, commands := t.commands, ended := true)
            && t.control == s.control.(status := t.control.status)
            && t.commands.Keys == s.commands.Keys
            && forall k :: k in s.commands ==>
                 if s.commands[k].status.Requested? then t.commands[k] == s.commands[k].(status := NotApplied)
                 else t.commands[k] == s.commands[k]
  {
    hide Logged, Profiles;
  }

  // ---------------------------------------------------------------- what calls are told

  /** The binding that the event returns to its call. */
  function Told(s: Selection, e: SelectionEvent): Option<Bound> {
    if !e.Bind? then None
    else
      var to := BindIn(s, e.candidate, e.view, e.token);
      if to.Ok? then to.value.1 else None
  }

  /** Every binding that calls were given, in order of time. */
  function Given(s: Selection, asked: set<Candidate>, moves: seq<Move>): seq<Bound>
    decreases |moves|
  {
    if moves == [] then []
    else
      match moves[0]
      case Ask(logical) => Given(s, asked + {CandidateOf(s, logical)}, moves[1..])
      case Do(e) =>
        if (e.Bind? && e.candidate !in asked) || (e.Reject? && e.rejected !in asked)
        then Given(s, asked, moves[1..])
        else (if Told(s, e).Some? then [Told(s, e).value] else []) + Given(ApplySelection(s, e), asked, moves[1..])
  }

  lemma ToldIsSaved(s: Selection, e: SelectionEvent)
    requires SelectionInv(s) && Told(s, e).Some?
    ensures var b, t := Told(s, e).value, ApplySelection(s, e);
            && e.Bind? && b.candidate.logical == e.candidate.logical
            && b.candidate.logical in t.bindings && t.bindings[b.candidate.logical] == b
  {
    hide CommandsOk, Profiles;
  }

  /** Every binding that a call was given is saved, and stays so. */
  lemma {:induction false} GivenAreSaved(s: Selection, asked: set<Candidate>, moves: seq<Move>, i: nat)
    requires SelectionInv(s) && AllIssued(s, asked) && i < |Given(s, asked, moves)|
    ensures var b, t := Given(s, asked, moves)[i], PlaySelection(s, asked, moves);
            b.candidate.logical in t.bindings && t.bindings[b.candidate.logical] == b
    decreases |moves|
  {
    hide SelectionInv, Issued, ApplySelection, CandidateOf, Told;
    match moves[0]
    case Ask(logical) =>
      CandidateIsIssued(s, logical);
      GivenAreSaved(s, asked + {CandidateOf(s, logical)}, moves[1..], i);
    case Do(e) =>
      if (e.Bind? && e.candidate !in asked) || (e.Reject? && e.rejected !in asked) {
        GivenAreSaved(s, asked, moves[1..], i);
      } else {
        var t := ApplySelection(s, e);
        SelectionKeeps(s, e);
        AllStayIssued(s, t, asked);
        if Told(s, e).Some? && i == 0 {
          ToldIsSaved(s, e);
          PlaySelectionKeeps(t, asked, moves[1..]);
        } else {
          GivenAreSaved(t, asked, moves[1..], if Told(s, e).Some? then i - 1 else i);
        }
      }
  }

  lemma AllStayIssued(s: Selection, t: Selection, asked: set<Candidate>)
    requires SelectionStep(s, t) && AllIssued(s, asked)
    ensures AllIssued(t, asked)
  {
    forall c | c in asked ensures Issued(t, c) {
      IssuedStays(s, t, c);
    }
  }

  /** However calls, selections and rejections interleave, all bindings that one logical call is ever given are the
      same: model, revision, view and token. */
  lemma GivenOnce(profile: Profile, moves: seq<Move>, i: nat, j: nat)
    requires i < |Given(Initial(profile), {}, moves)| && j < |Given(Initial(profile), {}, moves)|
    requires Given(Initial(profile), {}, moves)[i].candidate.logical
          == Given(Initial(profile), {}, moves)[j].candidate.logical
    ensures Given(Initial(profile), {}, moves)[i] == Given(Initial(profile), {}, moves)[j]
  {
    hide Given, PlaySelection;
    GivenAreSaved(Initial(profile), {}, moves, i);
    GivenAreSaved(Initial(profile), {}, moves, j);
  }

  // ---------------------------------------------------------------- the object

  class Selector {
    var state: Selection

    constructor (profile: Profile)
      ensures state == Initial(profile) && SelectionInv(state)
    {
      state := Initial(profile);
    }

    method Select(id: CommandId, profile: Profile, expected: nat) returns (res: Result<Control>)
      modifies this
      ensures var to := SelectIn(old(state), id, profile, expected);
              && res.Ok? == to.Ok? && (res.Err? ==> res.error == to.error)
              && state == (if to.Ok? then to.value else old(state)) && (res.Ok? ==> res.value == state.control)
    {
      if state.ended {
        return Err(RunStopped);
      } else if state.control.revision != expected {
        return Err(RevisionConflict);
      } else if id in state.commands {
        return Err(Integrity);
      }
      var was := state.control;
      if was.command.Some? && was.status == Some(Requested) && was.command.value in state.commands {
        var previous := state.commands[was.command.value];
        state := state.(commands := state.commands[was.command.value := previous.(status := Superseded)]);
      }
      state := state.(commands := state.commands[id := Command(was.revision + 1, profile, Requested)]);
      state := state.(control := was.(revision := was.revision + 1, desired := profile, status := Some(Requested),
                                      command := Some(id)),
                      chosen := state.chosen + [profile]);
      return Ok(state.control);
    }

    method Bind(c: Candidate, view: nat, token: nat) returns (res: Result<Option<Bound>>)
      modifies this
      ensures var to := BindIn(old(state), c, view, token);
              && res.Ok? == to.Ok? && (res.Err? ==> res.error == to.error)
              && state == (if to.Ok? then to.value.0 else old(state)) && (res.Ok? ==> res.value == to.value.1)
    {
      if state.ended {
        return Err(RunStopped);
      } else if c.logical in state.bindings {
        return Ok(Some(state.bindings[c.logical]));
      } else if c.revision != state.control.revision {
        return Ok(None);
      }
      var b := Bound(c, view, token);
      state := state.(bindings := state.bindings[c.logical := b], log := state.log + [c.logical]);
      state := state.(control := state.control.(effective := c.revision, effectiveProfile := c.profile,
                                                status := Some(Applied)));
      MarkCommand(Applied);
      return Ok(Some(b));
    }

    method Reject(c: Candidate) returns (res: Result<()>)
      modifies this
      ensures var to := RejectIn(old(state), c);
              && res.Ok? == to.Ok? && (res.Err? ==> res.error == to.error)
              && state == (if to.Ok? then to.value else old(state))
    {
      if state.ended {
        return Err(RunStopped);
      } else if c.revision != state.control.revision {
        return Ok(());
      }
      state := state.(control := state.control.(status := Some(Rejected)));
      MarkCommand(Rejected);
      return Ok(());
    }

    method Finish()
      modifies this
      ensures state == FinishIn(old(state))
    {
      state := state.(ended := true);
      if state.control.status == Some(Requested) {
        state := state.(control := state.control.(status := Some(NotApplied)));
        MarkCommand(NotApplied);
      }
    }

    /** Saves the status on the latest command, if there is one. */
    method MarkCommand(status: CommandStatus)
      modifies this
      ensures state == old(state).(commands := Mark(old(state).commands, old(state).control.command, status))
    {
      if state.control.command.Some? && state.control.command.value in state.commands {
        var k := state.control.command.value;
        state := state.(commands := state.commands[k := state.commands[k].(status := status)]);
      }
    }
  }
}
