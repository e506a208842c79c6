/** Message histories and the pairing of tool calls with their results. */
module History {
  import opened Domain
  import opened Collections

  type MessageId = nat
  type CallId = nat

  /** A call without an id is None.  `Other` stands for messages that neither call nor answer. */
  datatype Body = Human(image: bool) | Assistant(calls: seq<Option<CallId>>) | ToolAnswer(call: CallId) | Other

  datatype Message = Message(id: MessageId, body: Body)

  // ---------------------------------------------------------------- the validator as a machine

  /** What the validator carries from message to message. */
  datatype Scan = Scan(pending: set<CallId>, seen: set<CallId>)

  function Call(s: Scan, calls: seq<Option<CallId>>): Option<Scan>
    decreases |calls|
  {
    if calls == [] then Some(s)
    else if calls[0].None? || calls[0].value in s.seen then None
    else Call(Scan(s.pending + {calls[0].value}, s.seen + {calls[0].value}), calls[1..])
  }

  function Step(s: Scan, m: Message): Option<Scan> {
    if m.body.ToolAnswer? then
      if m.body.call in s.pending then Some(s.(pending := s.pending - {m.body.call})) else None
    else if s.pending != {} then None
    else if m.body.Assistant? then Call(s, m.body.calls)
    else Some(s)
  }

  function ScanAll(s: Scan, messages: seq<Message>): Option<Scan>
    decreases |messages|
  {
    if messages == [] then Some(s)
    else
      var next := Step(s, messages[0]);
      if next.None? then None else ScanAll(next.value, messages[1..])
  }

  const START := Scan({}, {})

  /** `validate_history`.  None is the raised error; the answer is the set of calls still open. */
  method ValidateHistory(messages: seq<Message>, allowPending: bool) returns (open: Option<set<CallId>>)
    ensures open.Some? <==>
              && ScanAll(START, messages).Some?
              && (allowPending || ScanAll(START, messages).value.pending == {})
    ensures open.Some? ==> open.value == ScanAll(START, messages).value.pending
    ensures !allowPending ==> (open.Some? <==> Paired(messages, {}))
  {
    PairedIff(messages, {});
    var pending, seen: set<CallId>, i := {}, {}, 0;
    while i < |messages|
      invariant 0 <= i <= |messages|
      invariant ScanAll(START, messages) == ScanAll(Scan(pending, seen), messages[i..])
    {
      var m := messages[i];
      assert messages[i..][1..] == messages[i + 1..];
      if m.body.ToolAnswer? {
        if m.body.call !in pending {
          return None;
        }
        pending := pending - {m.body.call};
      } else {
        if pending != {} {
          return None;
        }
        if m.body.Assistant? {
          var calls, j := m.body.calls, 0;
          ghost var s := Scan(pending, seen);
          while j < |calls|
            invariant 0 <= j <= |calls|
            invariant Call(s, calls) == Call(Scan(pending, seen), calls[j..])
          {
            assert calls[j..][1..] == calls[j + 1..];
            if calls[j].None? || calls[j].value in seen {
              return None;
            }
            pending, seen := pending + {calls[j].value}, seen + {calls[j].value};
            j := j + 1;
          }
        }
      }
      i := i + 1;
    }
    if pending != {} && !allowPending {
      return None;
    }
    return Some(pending);
  }

  // ---------------------------------------------------------------- what is accepted

  predicate Named(calls: seq<Option<CallId>>) {
    forall i :: 0 <= i < |calls| ==> calls[i].Some?
  }

  function Names(calls: seq<Option<CallId>>): seq<CallId>
    requires Named(calls)
  {
    seq(|calls|, i requires 0 <= i < |calls| => calls[i].value)
  }

  function Elements(s: seq<CallId>): set<CallId> {
    set x | x in s
  }

  predicate AllAnswers(messages: seq<Message>) {
    forall i :: 0 <= i < |messages| ==> messages[i].body.ToolAnswer?
  }

  function AnswerIds(messages: seq<Message>): seq<CallId>
    requires AllAnswers(messages)
  {
    seq(|messages|, i requires 0 <= i < |messages| => messages[i].body.call)
  }

  /** An assistant's calls have ids that are new to the history, and the messages right after it answer each of them
      once, in any order. */
  predicate AnswersFollow(calls: seq<Option<CallId>>, rest: seq<Message>, used: set<CallId>) {
    && Named(calls) && Distinct(Names(calls)) && Elements(Names(calls)) !! used
    && |calls| <= |rest| && AllAnswers(rest[..|calls|])
    && Distinct(AnswerIds(rest[..|calls|])) && Elements(AnswerIds(rest[..|calls|])) == Elements(Names(calls))
  }

  /** The reference definition: a history of complete exchanges. */
  predicate Paired(messages: seq<Message>, used: set<CallId>)
    decreases |messages|
  {
    if messages == [] then true
    else
      match messages[0].body
      case ToolAnswer(_) => false
      case Assistant(calls) =>
        AnswersFollow(calls, messages[1..], used)
        && Paired(messages[1..][|calls|..], used + Elements(Names(calls)))
      case Human(_) => Paired(messages[1..], used)
      case Other => Paired(messages[1..], used)
  }

  lemma {:induction false} CallNames(s: Scan, calls: seq<Option<CallId>>)
    ensures Call(s, calls).Some? <==> Named(calls) && Distinct(Names(calls)) && Elements(Names(calls)) !! s.seen
    ensures Call(s, calls).Some? ==>
      Call(s, calls).value == Scan(s.pending + Elements(Names(calls)), s.seen + Elements(Names(calls)))
    decreases |calls|
  {
    if calls != [] {
      if calls[0].Some? {
        var x := calls[0].value;
        CallNames(Scan(s.pending + {x}, s.seen + {x}), calls[1..]);
        if Named(calls) {
          assert Names(calls) == [x] + Names(calls[1..]);
          assert Elements(Names(calls)) == {x} + Elements(Names(calls[1..]));
          NamesAfterFirst(x, Names(calls[1..]));
        } else {
          assert !Named(calls[1..]) by {
            var i :| 0 <= i < |calls| && calls[i].None?;
            assert calls[1..][i - 1].None?;
          }
        }
      }
    }
  }

  lemma NamesAfterFirst(x: CallId, s: seq<CallId>)
    ensures Distinct([x] + s) <==> x !in Elements(s) && Distinct(s)
  {
    if Distinct([x] + s) {
      forall i, j | 0 <= i < j < |s| ensures s[i] != s[j] {
        assert ([x] + s)[i + 1] != ([x] + s)[j + 1];
      }
      forall i | 0 <= i < |s| ensures s[i] != x {
        assert ([x] + s)[0] != ([x] + s)[i + 1];
      }
    }
  }

  /** With calls open the machine accepts exactly when the next messages close them, each once. */
  lemma {:induction false} ClosesPending(s: Scan, messages: seq<Message>)
    ensures ScanAll(s, messages).Some? && ScanAll(s, messages).value.pending == {} <==>
      && |s.pending| <= |messages| && AllAnswers(messages[..|s.pending|])
      && Distinct(AnswerIds(messages[..|s.pending|])) && Elements(AnswerIds(messages[..|s.pending|])) == s.pending
      && ScanAll(Scan({}, s.seen), messages[|s.pending|..]).Some?
      && ScanAll(Scan({}, s.seen), messages[|s.pending|..]).value.pending == {}
    decreases |messages|
  {
    var n := |s.pending|;
    if s.pending == {} {
      assert messages[..0] == [] && messages[0..] == messages && Elements([]) == {};
      assert s == Scan({}, s.seen);
    } else if messages != [] {
      var m := messages[0];
      if m.body.ToolAnswer? && m.body.call in s.pending {
        var next := s.(pending := s.pending - {m.body.call});
        ClosesPending(next, messages[1..]);
        if n <= |messages| {
          assert messages[n..] == messages[1..][n - 1..];
          assert messages[..n] == [m] + messages[1..][..n - 1];
          FirstAnswer(m, messages[1..][..n - 1], s.pending);
        }
      } else if n <= |messages| && AllAnswers(messages[..n]) {
        assert messages[..n][0] == m && AnswerIds(messages[..n])[0] == m.body.call;
      }
    }
  }

  /** The first answer closes one call, the others close the rest. */
  lemma FirstAnswer(m: Message, rest: seq<Message>, open: set<CallId>)
    requires m.body.ToolAnswer? && m.body.call in open
    ensures AllAnswers([m] + rest) <==> AllAnswers(rest)
    ensures AllAnswers(rest) ==>
      (Distinct(AnswerIds([m] + rest)) && Elements(AnswerIds([m] + rest)) == open
       <==> Distinct(AnswerIds(rest)) && Elements(AnswerIds(rest)) == open - {m.body.call})
  {
    hide Distinct, Elements, AllAnswers, AnswerIds;
    FirstIds(m, rest);
    if AllAnswers(rest) {
      var x, ids := m.body.call, AnswerIds(rest);
      ElementsOfFirst(x, ids);
      NamesAfterFirst(x, ids);
      assert x !in Elements(ids) ==> ({x} + Elements(ids) == open <==> Elements(ids) == open - {x});
    }
  }

  lemma FirstIds(m: Message, rest: seq<Message>)
    requires m.body.ToolAnswer?
    ensures AllAnswers([m] + rest) <==> AllAnswers(rest)
    ensures AllAnswers(rest) ==> AnswerIds([m] + rest) == [m.body.call] + AnswerIds(rest)
  {
    assert forall i :: 0 <= i < |rest| ==> ([m] + rest)[i + 1] == rest[i];
  }

  lemma ElementsOfFirst(x: CallId, s: seq<CallId>)
    ensures Elements([x] + s) == {x} + Elements(s)
  {}

  lemma {:induction false} NamesCount(s: seq<CallId>)
    requires Distinct(s)
    ensures |Elements(s)| == |s|
    decreases |s|
  {
    if s == [] {
      assert Elements(s) == {};
    } else {
      assert s == [s[0]] + s[1..];
      NamesAfterFirst(s[0], s[1..]);
      NamesCount(s[1..]);
      assert Elements(s) == {s[0]} + Elements(s[1..]);
    }
  }

  /** The machine accepts exactly the histories of complete exchanges. */
  lemma {:induction false} PairedIff(messages: seq<Message>, used: set<CallId>)
    ensures Paired(messages, used) <==>
      ScanAll(Scan({}, used), messages).Some? && ScanAll(Scan({}, used), messages).value.pending == {}
    decreases |messages|
  {
    if messages != [] {
      var s, m, rest := Scan({}, used), messages[0], messages[1..];
      match m.body
      case ToolAnswer(_) =>
      case Human(_) => PairedIff(rest, used);
      case Other => PairedIff(rest, used);
      case Assistant(calls) =>
        CallNames(s, calls);
        if Call(s, calls).Some? {
          var names := Names(calls);
          NamesCount(names);
          ClosesPending(Scan({} + Elements(names), used + Elements(names)), rest);
          if |calls| <= |rest| {
            PairedIff(rest[|calls|..], used + Elements(names));
          }
        }
    }
  }

  // ---------------------------------------------------------------- cutting a history

  lemma AnswersStayBefore(x: seq<Message>, b: seq<Message>, n: nat)
    requires n <= |x + b| && forall i :: 0 <= i < n ==> (x + b)[i].body.ToolAnswer?
    requires b == [] || !b[0].body.ToolAnswer?
    ensures n <= |x|
  {
    if b != [] {
      assert (x + b)[|x|] == b[0];
    }
  }

  /** A cut before anything but an answer separates complete exchanges. */
  lemma {:induction false} CutPaired(a: seq<Message>, b: seq<Message>, used: set<CallId>)
    requires Paired(a + b, used) && (b == [] || !b[0].body.ToolAnswer?)
    ensures Paired(a, used) && Paired(b, {})
    decreases |a|
  {
    if a == [] {
      assert a + b == b;
      FewerUsed(b, used, {});
    } else {
      var m := a[0];
      assert (a + b)[0] == m && (a + b)[1..] == a[1..] + b;
      match m.body
      case ToolAnswer(_) =>
      case Human(_) => CutPaired(a[1..], b, used);
      case Other => CutPaired(a[1..], b, used);
      case Assistant(calls) =>
        var n := |calls|;
        var rest := a[1..] + b;
        assert forall i :: 0 <= i < n ==> rest[i].body.ToolAnswer? by {
          assert forall i :: 0 <= i < n ==> rest[..n][i] == rest[i];
        }
        AnswersStayBefore(a[1..], b, n);
        assert rest[..n] == a[1..][..n] && rest[n..] == a[1..][n..] + b;
        CutPaired(a[1..][n..], b, used + Elements(Names(calls)));
    }
  }

  lemma {:induction false} FewerUsed(messages: seq<Message>, used: set<CallId>, fewer: set<CallId>)
    requires Paired(messages, used) && fewer <= used
    ensures Paired(messages, fewer)
    decreases |messages|
  {
    if messages != [] {
      match messages[0].body
      case ToolAnswer(_) =>
      case Human(_) => FewerUsed(messages[1..], used, fewer);
      case Other => FewerUsed(messages[1..], used, fewer);
      case Assistant(calls) =>
        FewerUsed(messages[1..][|calls|..], used + Elements(Names(calls)), fewer + Elements(Names(calls)));
    }
  }

  /** Messages that neither call nor answer may stand before any history. */
  lemma {:induction false} PrefixedPaired(a: seq<Message>, b: seq<Message>, used: set<CallId>)
    requires Paired(b, used) && forall i :: 0 <= i < |a| ==> a[i].body.Human?
    ensures Paired(a + b, used)
    decreases |a|
  {
    if a == [] {
      assert a + b == b;
    } else {
      assert (a + b)[0] == a[0] && (a + b)[1..] == a[1..] + b;
      PrefixedPaired(a[1..], b, used);
    }
  }
}
