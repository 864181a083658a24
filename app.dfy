/**
 * The application controller (src/App.tsx): three state cells overwritten by
 * three event handlers, and the screen chosen from the current state.
 * The classifier's answer (a code and a confidence) arrives as a parameter of
 * the loading-complete event; there is no failure transition.
 */
module App {
  import opened Wrappers
  import opened Types
  import GenerateDiagnosis

  datatype AppState = Form | Loading | Results

  /** The three cells as one value. */
  datatype Snapshot = Snapshot(state: AppState, userData: Option<UserData>, analysis: Option<SkinAnalysisResult>)

  /** The events that drive the controller. */
  datatype Event =
    | Submit(data: UserData)
    | LoadingComplete(code: Diagnosis, confidence: real)
    | Restart

  /** The screen rendered for a state. */
  datatype View =
    | FormView
    | LoadingView(pending: Option<UserData>)
    | ResultsView(user: UserData, analysis: SkinAnalysisResult)

  const Initial: Snapshot := Snapshot(Form, None, None)

  /** What makes the non-null assertions of the results branch safe. */
  ghost predicate Inv(s: Snapshot)
  {
    && (s.state == Loading ==> s.userData.Some?)
    && (s.state == Results ==> s.userData.Some? && s.analysis.Some?)
  }

  /** The effect of one event on the cells. */
  function Next(s: Snapshot, e: Event): (r: Snapshot)
    ensures Inv(s) ==> Inv(r)
    ensures e.Restart? ==> r == Initial
  {
    match e
    case Submit(data) => Snapshot(Loading, Some(data), s.analysis)
    case LoadingComplete(code, confidence) =>
      if s.userData.Some? then Snapshot(Results, s.userData, Some(GenerateDiagnosis.Enrich(code, confidence)))
      else s
    case Restart => Snapshot(Form, None, None)
  }

  /** The cells after a sequence of events, applied left to right. */
  function Run(s: Snapshot, events: seq<Event>): Snapshot
    decreases |events|
  {
    if events == [] then s else Run(Next(s, events[0]), events[1..])
  }

  /** Every event keeps the invariant. */
  lemma NextKeepsInv(s: Snapshot, e: Event)
    requires Inv(s)
    ensures Inv(Next(s, e))
  {
  }

  /** Every state reachable from the initial one satisfies the invariant. */
  lemma {:induction false} RunKeepsInv(s: Snapshot, events: seq<Event>)
    requires Inv(s)
    ensures Inv(Run(s, events))
    decreases |events|
  {
    if events != [] {
      NextKeepsInv(s, events[0]);
      RunKeepsInv(Next(s, events[0]), events[1..]);
    }
  }

  lemma ReachableStatesAreConsistent(events: seq<Event>)
    ensures Inv(Run(Initial, events))
  {
    RunKeepsInv(Initial, events);
  }

  /** Restart always lands in the empty form state, so a second restart changes nothing. */
  lemma RestartIdempotent(s: Snapshot)
    ensures Next(s, Restart) == Initial
    ensures Next(Next(s, Restart), Restart) == Next(s, Restart)
  {
  }

  /** Loading completes without effect when no user data is held. */
  lemma LoadingCompleteWithoutUser(s: Snapshot, code: Diagnosis, confidence: real)
    requires s.userData.None?
    ensures Next(s, LoadingComplete(code, confidence)) == s
  {
  }

  /** From a loading state, completion yields a report enriched from the classifier's answer. */
  lemma LoadingCompleteReport(s: Snapshot, code: Diagnosis, confidence: real)
    requires Inv(s) && s.state == Loading
    ensures var t := Next(s, LoadingComplete(code, confidence));
      && t.state == Results && t.userData == s.userData
      && t.analysis.Some? && t.analysis.value.diagnosis == code && t.analysis.value.confidence == confidence
      && GenerateDiagnosis.EntryOf(t.analysis.value) == GenerateDiagnosis.Lookup(code)
  {
  }

  /** The switch over the state; the declared union leaves the default branch unreachable. */
  function Render(s: Snapshot): (v: View)
    requires Inv(s)
    ensures v.FormView? <==> s.state == Form
    ensures v.LoadingView? ==> s.state == Loading && v.pending == s.userData && v.pending.Some?
    ensures v.ResultsView? ==> s.state == Results && Some(v.user) == s.userData && Some(v.analysis) == s.analysis
  {
    match s.state
    case Form => FormView
    case Loading => LoadingView(s.userData)
    case Results => ResultsView(s.userData.value, s.analysis.value)
  }

  /** The component itself: its three state cells and their handlers. */
  class Controller {
    var currentState: AppState
    var userData: Option<UserData>
    var analysis: Option<SkinAnalysisResult>

    function Cells(): Snapshot
      reads this
    {
      Snapshot(currentState, userData, analysis)
    }

    ghost predicate Valid()
      reads this
    {
      Inv(Cells())
    }

    constructor ()
      ensures Valid() && Cells() == Initial
    {
      currentState, userData, analysis := Form, None, None;
    }

    /** `handleFormSubmit`: stores the data and moves to loading; the analysis cell is untouched. */
    method HandleFormSubmit(data: UserData)
      requires Valid()
      modifies this
      ensures Valid() && Cells() == Next(old(Cells()), Submit(data))
      ensures currentState == Loading && userData == Some(data) && analysis == old(analysis)
    {
      userData := Some(data);
      currentState := Loading;
    }

    /** `handleLoadingComplete`: with user data, stores the enriched report and shows results; otherwise nothing. */
    method HandleLoadingComplete(code: Diagnosis, confidence: real)
      requires Valid()
      modifies this
      ensures Valid() && Cells() == Next(old(Cells()), LoadingComplete(code, confidence))
      ensures old(userData).None? ==> Cells() == old(Cells())
      ensures old(userData).Some? ==>
                currentState == Results && userData == old(userData) &&
                analysis == Some(GenerateDiagnosis.Enrich(code, confidence))
    {
      if userData.Some? {
        var analysisResult := GenerateDiagnosis.Enrich(code, confidence);
        analysis := Some(analysisResult);
        currentState := Results;
      }
    }

    /** `handleRestart`: back to the empty form state. */
    method HandleRestart()
      requires Valid()
      modifies this
      ensures Valid() && Cells() == Next(old(Cells()), Restart)
      ensures currentState == Form && userData == None && analysis == None
    {
      currentState := Form;
      userData := None;
      analysis := None;
    }
  }
}
