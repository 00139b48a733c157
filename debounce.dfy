/**
 * The debounced search box of the home screen as a discrete event machine.
 * Every change of the live text replaces the one outstanding timer, and only
 * a timer that fires commits its text to the query the filter uses. Time
 * itself is abstracted to the order of `Keystroke` and `TimerFires` events.
 */
module Debounce {
  import opened Wrappers

  /**
   * `searchText` is the live text field, `pending` the value the outstanding
   * timer will commit (None once it has fired), `searchQuery` the committed
   * query.
   */
  datatype SearchState = SearchState(searchText: string, pending: Option<string>, searchQuery: string)

  datatype Event = Keystroke(text: string) | TimerFires

  /** On mount the effect already schedules a commit of the empty text. */
  const Mounted := SearchState("", Some(""), "")

  /**
   * A keystroke that changes the text cancels the outstanding timer and
   * starts one for the new text; one that leaves the text as it was does not
   * re-run the effect. A firing timer commits its text and is gone.
   */
  function Step(s: SearchState, e: Event): SearchState
  {
    match e
    case Keystroke(t) =>
      if t == s.searchText then s else s.(searchText := t, pending := Some(t))
    case TimerFires =>
      if s.pending.Some? then s.(searchQuery := s.pending.value, pending := None) else s
  }

  function Run(s: SearchState, events: seq<Event>): SearchState
    decreases |events|
  {
    if events == [] then s else Run(Step(s, events[0]), events[1..])
  }

  /** The texts typed during `events`. */
  function Typed(events: seq<Event>): set<string>
  {
    set i | 0 <= i < |events| && events[i].Keystroke? :: events[i].text
  }

  /** A run of keystrokes with the given texts and no timer firing in between. */
  function Keystrokes(texts: seq<string>): (r: seq<Event>)
    ensures |r| == |texts|
    ensures forall i :: 0 <= i < |r| ==> r[i] == Keystroke(texts[i])
  {
    seq(|texts|, i requires 0 <= i < |texts| => Keystroke(texts[i]))
  }

  /**
   * The outstanding timer always carries the current text, and when no timer
   * is outstanding the current text has already been committed.
   */
  predicate Consistent(s: SearchState)
  {
    && (s.pending.Some? ==> s.pending.value == s.searchText)
    && (s.pending.None? ==> s.searchQuery == s.searchText)
  }

  lemma MountedConsistent()
    ensures Consistent(Mounted)
  {
  }

  /** Every event preserves consistency. */
  lemma StepConsistent(s: SearchState, e: Event)
    requires Consistent(s)
    ensures Consistent(Step(s, e))
  {
  }

  /**
   * The committed query only ever takes a value the text field has held:
   * its value at the start of the run or a typed text.
   */
  lemma {:induction false} QueryWasTyped(s: SearchState, events: seq<Event>)
    requires Consistent(s)
    ensures Consistent(Run(s, events))
    ensures Run(s, events).searchText in {s.searchText} + Typed(events)
    ensures Run(s, events).searchQuery in {s.searchText, s.searchQuery} + Typed(events)
    decreases |events|
  {
    if events != [] {
      var s' := Step(s, events[0]);
      StepConsistent(s, events[0]);
      QueryWasTyped(s', events[1..]);
      assert Typed(events[1..]) <= Typed(events) by {
        forall t | t in Typed(events[1..]) ensures t in Typed(events) {
          var i :| 0 <= i < |events[1..]| && events[1..][i].Keystroke? && events[1..][i].text == t;
          assert events[i + 1] == events[1..][i];
        }
      }
      if events[0].Keystroke? {
        assert events[0].text in Typed(events);
      }
    }
  }

  /** Keystrokes alone never change the committed query; the text ends as the last one typed. */
  lemma {:induction false} KeystrokesDoNotCommit(s: SearchState, texts: seq<string>)
    requires Consistent(s)
    ensures Run(s, Keystrokes(texts)).searchQuery == s.searchQuery
    ensures texts != [] ==> Run(s, Keystrokes(texts)).searchText == texts[|texts| - 1]
    ensures texts == [] ==> Run(s, Keystrokes(texts)) == s
    ensures Consistent(Run(s, Keystrokes(texts)))
    decreases |texts|
  {
    if texts != [] {
      var events := Keystrokes(texts);
      assert events[1..] == Keystrokes(texts[1..]);
      var s' := Step(s, Keystroke(texts[0]));
      KeystrokesDoNotCommit(s', texts[1..]);
      if |texts| > 1 {
        assert texts[1..][|texts[1..]| - 1] == texts[|texts| - 1];
      }
    }
  }

  lemma {:induction false} RunAppend(s: SearchState, a: seq<Event>, b: seq<Event>)
    ensures Run(s, a + b) == Run(Run(s, a), b)
    decreases |a|
  {
    if a == [] {
      assert a + b == b;
    } else {
      assert (a + b)[0] == a[0];
      assert (a + b)[1..] == a[1..] + b;
      RunAppend(Step(s, a[0]), a[1..], b);
    }
  }

  /**
   * After several keystrokes with no timer firing in between, the next
   * firing commits the last text typed, and a further firing changes nothing.
   */
  lemma LastKeystrokeWins(s: SearchState, texts: seq<string>)
    requires Consistent(s)
    requires texts != []
    ensures Run(s, Keystrokes(texts) + [TimerFires]).searchQuery == texts[|texts| - 1]
    ensures Run(s, Keystrokes(texts) + [TimerFires, TimerFires]) == Run(s, Keystrokes(texts) + [TimerFires])
  {
    KeystrokesDoNotCommit(s, texts);
    var typed := Run(s, Keystrokes(texts));
    RunAppend(s, Keystrokes(texts), [TimerFires]);
    RunAppend(s, Keystrokes(texts), [TimerFires, TimerFires]);
    assert Run(typed, [TimerFires]) == Step(typed, TimerFires);
    assert Run(typed, [TimerFires, TimerFires]) == Step(Step(typed, TimerFires), TimerFires);
  }

  /**
   * Typing "a", "ab", "abc" and "abcd" faster than the debounce window:
   * nothing is committed until the timer fires, and then only "abcd".
   */
  lemma TypingAbcdExample()
    ensures Run(Mounted, Keystrokes(["a", "ab", "abc", "abcd"])).searchQuery == ""
    ensures Run(Mounted, Keystrokes(["a", "ab", "abc", "abcd"]) + [TimerFires]).searchQuery == "abcd"
  {
    KeystrokesDoNotCommit(Mounted, ["a", "ab", "abc", "abcd"]);
    LastKeystrokeWins(Mounted, ["a", "ab", "abc", "abcd"]);
  }
}
