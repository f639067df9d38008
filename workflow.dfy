/**
 * The session workflow of the `App` component as a pure state machine.
 * A World is the controller's state together with two records kept for the
 * proofs: every item handed to `saveHistoryItem`, and every URL handed to
 * `URL.revokeObjectURL`. Each asynchronous handler is split at its `await`
 * into an event that starts it and an event that settles it with the
 * external outcome; the values the handler captured when it started travel
 * in a request.
 */
module Workflow {
  import opened Types
  import Cleanup

  /** The controller's fields (App.tsx:85-98, without the history list). */
  datatype Session = Session(
    state: AppState,
    images: seq<string>,
    base64Images: seq<string>,
    carDetails: CarDetails,
    analysis: Option<AnalysisResult>,
    ads: Option<AdContent>,
    sessionId: Option<string>,
    activeImageIndex: int)

  /**
   * The session, the requests of the handler calls still in flight (set when
   * a call starts, cleared when it settles, kept across a reset), the items
   * saved so far and the URLs revoked so far.
   */
  datatype World = World(
    session: Session,
    pendingAnalysis: Option<AnalysisRequest>,
    pendingGeneration: Option<GenerationRequest>,
    saved: seq<HistoryItem>,
    revoked: seq<string>)

  /** What `handleStartAnalysis` holds across its `await`s: the session id, the details, the number of files. */
  datatype AnalysisRequest = AnalysisRequest(sessionId: string, details: CarDetails, fileCount: nat)

  /** The encoded files and the analyser's answer, or the failure of either step. */
  datatype AnalysisOutcome =
    | Analyzed(base64s: seq<string>, result: AnalysisResult)
    | AnalysisFailed(message: string)

  /** What `handleGenerateAds` read from the state when it was invoked. */
  datatype GenerationRequest = GenerationRequest(
    analysis: AnalysisResult,
    base64Images: seq<string>,
    carDetails: CarDetails,
    sessionId: Option<string>)

  datatype GenerationOutcome = Generated(ads: AdContent) | GenerationFailed(message: string)

  datatype Event =
    | StartAnalysis(freshId: string, details: CarDetails, fileCount: nat)
    | AnalysisSettled(request: AnalysisRequest, outcome: AnalysisOutcome, displayUrls: seq<string>, timestamp: int)
    | GenerateAds
    | GenerationSettled(generation: GenerationRequest, generationOutcome: GenerationOutcome, timestamp: int)
    | HardReset
    | RestoreSession(item: HistoryItem)
    | ViewExisting
    | Back
    | SelectImage(index: int)

  function BlankSession(): Session {
    Session(Idle, [], [], BlankCarDetails(), None, None, None, 0)
  }

  function Initial(): World {
    World(BlankSession(), None, None, [], [])
  }

  /** JavaScript truthiness of a `string | null`: null and "" are both false. */
  predicate Truthy(id: Option<string>) {
    id.Some? && id.value != ""
  }

  /** `currentSessionId || Date.now().toString()`. */
  function HeldOr(held: Option<string>, freshId: string): string {
    if Truthy(held) then held.value else freshId
  }

  function AnalysisRequestFor(s: Session, freshId: string, details: CarDetails, fileCount: nat): AnalysisRequest {
    AnalysisRequest(HeldOr(s.sessionId, freshId), details, fileCount)
  }

  /** None when the guard `if (!analysis) return` fires. */
  function GenerationRequestFor(s: Session): Option<GenerationRequest> {
    if s.analysis.None? then None
    else Some(GenerationRequest(s.analysis.value, s.base64Images, s.carDetails, s.sessionId))
  }

  /** The item saved after a successful analysis. */
  function AnalysisSnapshot(req: AnalysisRequest, result: AnalysisResult, timestamp: int): HistoryItem {
    HistoryItem(req.sessionId, timestamp, req.details, result, None, [])
  }

  /** The items saved after a successful generation: one, or none without a session id. */
  function GenerationSnapshots(req: GenerationRequest, ads: AdContent, timestamp: int): seq<HistoryItem> {
    if Truthy(req.sessionId) then [HistoryItem(req.sessionId.value, timestamp, req.carDetails, req.analysis, Some(ads), [])]
    else []
  }

  /**
   * One handler phase or UI transition. The history log and the revocation
   * record only ever grow, and at most one item is saved per step.
   */
  function Step(w: World, e: Event): (r: World)
    ensures w.saved <= r.saved && |r.saved| <= |w.saved| + 1
    ensures w.revoked <= r.revoked
  {
    var s := w.session;
    match e
    case StartAnalysis(freshId, details, fileCount) =>
      w.(session := s.(state := Analyzing, activeImageIndex := 0, sessionId := Some(HeldOr(s.sessionId, freshId))),
         pendingAnalysis := Some(AnalysisRequestFor(s, freshId, details, fileCount)))
    case AnalysisSettled(req, outcome, displayUrls, timestamp) =>
      (match outcome
       case Analyzed(base64s, result) =>
         w.(session := s.(images := displayUrls, base64Images := base64s, carDetails := req.details,
                          analysis := Some(result), state := Review),
            pendingAnalysis := None,
            saved := w.saved + [AnalysisSnapshot(req, result, timestamp)],
            revoked := w.revoked + Cleanup.BlobUrls(s.images))
       case AnalysisFailed(_) =>
         w.(session := s.(state := Idle), pendingAnalysis := None))
    case GenerateAds =>
      if s.analysis.None? then w
      else w.(session := s.(state := GeneratingAds), pendingGeneration := GenerationRequestFor(s))
    case GenerationSettled(req, outcome, timestamp) =>
      (match outcome
       case Generated(ads) =>
         w.(session := s.(ads := Some(ads), state := Done),
            pendingGeneration := None,
            saved := w.saved + GenerationSnapshots(req, ads, timestamp))
       case GenerationFailed(_) =>
         w.(session := s.(state := Review), pendingGeneration := None))
    case HardReset =>
      w.(session := BlankSession(), revoked := w.revoked + Cleanup.BlobUrls(s.images))
    case RestoreSession(item) =>
      w.(session := Session(if item.ads.Some? then Done else Review, item.images, item.images, item.carDetails,
                            Some(item.analysis), item.ads, Some(item.id), 0),
         revoked := w.revoked + Cleanup.BlobUrls(s.images))
    case ViewExisting =>
      w.(session := s.(state := Done))
    case Back =>
      w.(session := s.(state := Review))
    case SelectImage(i) =>
      w.(session := s.(activeImageIndex := i))
  }

  /** The events of a trace, applied in order. */
  function Run(w: World, events: seq<Event>): (r: World)
    ensures w.saved <= r.saved && w.revoked <= r.revoked
    decreases |events|
  {
    if events == [] then w
    else Step(Run(w, events[..|events| - 1]), events[|events| - 1])
  }

  // ---------------------------------------------------------------------
  // Per-transition properties

  /** Starting reuses a held session id and otherwise takes the fresh one; the stored id is the issued request's. */
  lemma StartKeepsSessionId(w: World, freshId: string, details: CarDetails, fileCount: nat)
    ensures var req := AnalysisRequestFor(w.session, freshId, details, fileCount);
      var r := Step(w, StartAnalysis(freshId, details, fileCount));
      var t := r.session;
      && r.pendingAnalysis == Some(req)
      && t.state == Analyzing
      && t.sessionId == Some(req.sessionId)
      && (Truthy(w.session.sessionId) ==> req.sessionId == w.session.sessionId.value)
      && (!Truthy(w.session.sessionId) ==> req.sessionId == freshId)
  {
  }

  /** A failed analysis keeps the id it stored, so the retry runs under the same session id. */
  lemma RetryReusesSessionId(
    w: World, firstId: string, details: CarDetails, fileCount: nat, failure: string,
    urls: seq<string>, timestamp: int, secondId: string, retryDetails: CarDetails, retryCount: nat)
    requires firstId != ""
    ensures var req := AnalysisRequestFor(w.session, firstId, details, fileCount);
      var failed := Step(Step(w, StartAnalysis(firstId, details, fileCount)), AnalysisSettled(req, AnalysisFailed(failure), urls, timestamp));
      && failed.session.state == Idle
      && failed.saved == w.saved
      && AnalysisRequestFor(failed.session, secondId, retryDetails, retryCount).sessionId == req.sessionId
  {
  }

  /** Starting an analysis never reaches DONE: it settles in REVIEW or back in IDLE. */
  lemma StartNeverReachesDone(w: World, freshId: string, details: CarDetails, fileCount: nat,
                              req: AnalysisRequest, outcome: AnalysisOutcome, urls: seq<string>, timestamp: int)
    ensures var t := Step(Step(w, StartAnalysis(freshId, details, fileCount)), AnalysisSettled(req, outcome, urls, timestamp)).session;
      (t.state == Review <==> outcome.Analyzed?) && (t.state == Idle <==> outcome.AnalysisFailed?)
  {
  }

  /** A successful analysis: REVIEW, images and payloads of equal length, one image-less item with null ads saved. */
  lemma AnalysisSuccess(w: World, req: AnalysisRequest, base64s: seq<string>, result: AnalysisResult,
                        urls: seq<string>, timestamp: int)
    requires |urls| == req.fileCount && |base64s| == req.fileCount
    ensures var r := Step(w, AnalysisSettled(req, Analyzed(base64s, result), urls, timestamp));
      && r.session.state == Review
      && |r.session.images| == |r.session.base64Images| == req.fileCount
      && r.session.carDetails == req.details
      && r.session.analysis == Some(result)
      && |r.saved| == |w.saved| + 1
      && r.saved[..|w.saved|] == w.saved
      && r.saved[|w.saved|].id == req.sessionId
      && r.saved[|w.saved|].analysis == result
      && r.saved[|w.saved|].ads.None?
      && r.saved[|w.saved|].images == []
  {
  }

  /** A failed analysis returns to IDLE and touches no session data and no history. */
  lemma AnalysisFailure(w: World, req: AnalysisRequest, message: string, urls: seq<string>, timestamp: int)
    ensures var r := Step(w, AnalysisSettled(req, AnalysisFailed(message), urls, timestamp));
      && r.session == w.session.(state := Idle)
      && r.pendingAnalysis.None?
      && r.saved == w.saved
      && r.revoked == w.revoked
  {
  }

  /** Generation is a no-op without an analysis, and needs nothing but an analysis (no images). */
  lemma GenerateGuard(w: World)
    ensures w.session.analysis.None? ==> Step(w, GenerateAds) == w && GenerationRequestFor(w.session).None?
    ensures w.session.analysis.Some? ==>
      && Step(w, GenerateAds).session == w.session.(state := GeneratingAds)
      && Step(w, GenerateAds).saved == w.saved
      && GenerationRequestFor(w.session).Some?
      && Step(w, GenerateAds).pendingGeneration == GenerationRequestFor(w.session)
  {
  }

  /** A successful generation: DONE with the ads, and one snapshot saved exactly when the session id is truthy. */
  lemma GenerationSuccess(w: World, req: GenerationRequest, ads: AdContent, timestamp: int)
    ensures var r := Step(w, GenerationSettled(req, Generated(ads), timestamp));
      && r.session.state == Done
      && r.session.ads == Some(ads)
      && r.session.analysis == w.session.analysis
      && r.session.carDetails == w.session.carDetails
      && (Truthy(req.sessionId) <==> |r.saved| == |w.saved| + 1)
      && (!Truthy(req.sessionId) ==> r.saved == w.saved)
      && (Truthy(req.sessionId) ==>
           r.saved == w.saved + [HistoryItem(req.sessionId.value, timestamp, req.carDetails, req.analysis, Some(ads), [])])
  {
  }

  /** A failed generation returns to REVIEW, keeps the previous ads and saves nothing. */
  lemma GenerationFailure(w: World, req: GenerationRequest, message: string, timestamp: int)
    ensures var r := Step(w, GenerationSettled(req, GenerationFailed(message), timestamp));
      && r.session == w.session.(state := Review)
      && r.pendingGeneration.None?
      && r.saved == w.saved
  {
  }

  /** Reset clears the session and releases every blob URL of the old images exactly once. */
  lemma ResetReleasesHandles(w: World, u: string)
    ensures var r := Step(w, HardReset);
      && r.session == BlankSession()
      && r.saved == w.saved
      && r.revoked[..|w.revoked|] == w.revoked
      && multiset(r.revoked[|w.revoked|..])[u] == if Cleanup.IsBlobUrl(u) then multiset(w.session.images)[u] else 0
  {
    var r := Step(w, HardReset);
    assert r.revoked[|w.revoked|..] == Cleanup.BlobUrls(w.session.images);
    Cleanup.BlobUrlsCount(w.session.images, u);
  }

  /** Restore copies the item, shows DONE exactly when it has ads, and keeps images and payloads equal. */
  lemma RestoreCopiesItem(w: World, item: HistoryItem)
    ensures var r := Step(w, RestoreSession(item)).session;
      && (r.state == Done <==> item.ads.Some?)
      && (r.state == Review <==> item.ads.None?)
      && r.images == r.base64Images == item.images
      && r.sessionId == Some(item.id)
      && r.carDetails == item.carDetails
      && r.analysis == Some(item.analysis)
      && r.ads == item.ads
      && r.activeImageIndex == 0
  {
  }

  /** The URLs created for a new analysis are not among those its cleanup revokes. */
  lemma NewHandlesSurviveCleanup(w: World, req: AnalysisRequest, base64s: seq<string>, result: AnalysisResult,
                                 urls: seq<string>, timestamp: int)
    requires forall u :: u in urls ==> u !in w.session.images
    ensures var r := Step(w, AnalysisSettled(req, Analyzed(base64s, result), urls, timestamp));
      forall u :: u in r.session.images ==> u !in r.revoked[|w.revoked|..]
  {
    var r := Step(w, AnalysisSettled(req, Analyzed(base64s, result), urls, timestamp));
    assert r.revoked[|w.revoked|..] == Cleanup.BlobUrls(w.session.images);
    forall u | u in r.session.images
      ensures u !in r.revoked[|w.revoked|..]
    {
      Cleanup.BlobUrlsMembership(w.session.images, u);
    }
  }

  /** Only starting, resetting and restoring change the session id. */
  lemma SessionIdChanges(w: World, e: Event)
    requires Step(w, e).session.sessionId != w.session.sessionId
    ensures e.StartAnalysis? || e.HardReset? || e.RestoreSession?
  {
  }

  // ---------------------------------------------------------------------
  // Analyze, then generate: the two snapshots of one session

  /** From a blank session, a successful analysis and generation save two snapshots of the same session. */
  lemma AnalyzeThenGenerate(w: World, freshId: string, details: CarDetails, base64s: seq<string>,
                            result: AnalysisResult, urls: seq<string>, t1: int, ads: AdContent, t2: int)
    requires w.session.sessionId.None?
    requires freshId != ""
    ensures
      var req := AnalysisRequestFor(w.session, freshId, details, |urls|);
      var analysed := Step(Step(w, StartAnalysis(freshId, details, |urls|)), AnalysisSettled(req, Analyzed(base64s, result), urls, t1));
      var requested := Step(analysed, GenerateAds);
      GenerationRequestFor(analysed.session).Some? &&
      var done := Step(requested, GenerationSettled(GenerationRequestFor(analysed.session).value, Generated(ads), t2));
      && analysed.session.state == Review
      && done.session.state == Done
      && |done.saved| == |w.saved| + 2
      && done.saved[|w.saved|] == HistoryItem(freshId, t1, details, result, None, [])
      && done.saved[|w.saved| + 1] == HistoryItem(freshId, t2, details, result, Some(ads), [])
  {
  }

  // ---------------------------------------------------------------------
  // Invariants along traces

  /**
   * The controller's coherence: parallel image lists, nothing displayed
   * before an analysis, a session id once started, an analysis whenever it
   * is reviewed, ads whenever they are shown, and an in-range image index.
   */
  predicate Coherent(s: Session) {
    && |s.images| == |s.base64Images|
    && ((s.state == Idle || s.state == Analyzing) ==>
          s.images == [] && s.activeImageIndex == 0 && s.analysis.None? && s.ads.None?)
    && (s.state != Idle ==> s.sessionId.Some?)
    && ((s.state == Review || s.state == GeneratingAds || s.state == Done) ==> s.analysis.Some?)
    && (s.state == Done ==> s.ads.Some?)
    && 0 <= s.activeImageIndex
    && (s.images != [] ==> s.activeImageIndex < |s.images|)
  }

  /** The main panel renders something (App.tsx:240-273 shows nothing when no branch applies). */
  predicate PanelShown(s: Session) {
    || s.state == Idle
    || s.state == Analyzing
    || ((s.state == Review || s.state == GeneratingAds) && s.analysis.Some?)
    || (s.state == Done && s.ads.Some?)
  }

  /**
   * The events the interface offers in a state, and completions that arrive
   * while their phase is still pending, carrying the request that phase
   * issued. The encoded files and the display URLs both come from the one
   * list of files, so they have its length.
   */
  predicate Enabled(w: World, e: Event) {
    var s := w.session;
    match e
    case StartAnalysis(freshId, _, _) => s.state == Idle && freshId != ""
    case AnalysisSettled(req, outcome, urls, _) =>
      s.state == Analyzing && w.pendingAnalysis == Some(req) && |urls| == req.fileCount
      && (outcome.Analyzed? ==> |outcome.base64s| == req.fileCount)
    case GenerateAds => s.state == Review || s.state == Done
    case GenerationSettled(req, _, _) => s.state == GeneratingAds && w.pendingGeneration == Some(req)
    case HardReset => true
    case RestoreSession(_) => s.state == Idle
    case ViewExisting => s.state == Review && s.ads.Some?
    case Back => s.state == Done
    case SelectImage(i) => s.state != Idle && 0 <= i < |s.images|
  }

  predicate EnabledTrace(w: World, events: seq<Event>)
    decreases |events|
  {
    events == [] ||
    (EnabledTrace(w, events[..|events| - 1]) && Enabled(Run(w, events[..|events| - 1]), events[|events| - 1]))
  }

  lemma CoherentShowsPanel(s: Session)
    requires Coherent(s)
    ensures PanelShown(s)
  {
  }

  lemma StepKeepsCoherent(w: World, e: Event)
    requires Coherent(w.session) && Enabled(w, e)
    ensures Coherent(Step(w, e).session)
  {
  }

  /**
   * While a call is in flight its request agrees with the session: the
   * analysis request carries the stored session id, and the generation
   * request is exactly what the session would issue now.
   */
  predicate Agrees(w: World) {
    && (w.session.state == Analyzing ==>
          w.pendingAnalysis.Some? && w.session.sessionId == Some(w.pendingAnalysis.value.sessionId))
    && (w.session.state == GeneratingAds ==>
          w.pendingGeneration.Some? && GenerationRequestFor(w.session) == w.pendingGeneration)
  }

  lemma StepKeepsAgreement(w: World, e: Event)
    requires Agrees(w) && Enabled(w, e)
    ensures Agrees(Step(w, e))
  {
  }

  /** Along every trace of offered events, in-flight requests agree with the session. */
  lemma {:induction false} RunKeepsAgreement(w: World, events: seq<Event>)
    requires Agrees(w) && EnabledTrace(w, events)
    ensures Agrees(Run(w, events))
  {
    if events != [] {
      var n := |events| - 1;
      RunKeepsAgreement(w, events[..n]);
      StepKeepsAgreement(Run(w, events[..n]), events[n]);
    }
  }

  /** Every trace of offered events keeps the controller coherent. */
  lemma {:induction false} RunKeepsCoherent(w: World, events: seq<Event>)
    requires Coherent(w.session) && EnabledTrace(w, events)
    ensures Coherent(Run(w, events).session)
  {
    if events != [] {
      var n := |events| - 1;
      RunKeepsCoherent(w, events[..n]);
      StepKeepsCoherent(Run(w, events[..n]), events[n]);
    }
  }

  /**
   * Nothing discards a late answer: a generation failure that arrives after a
   * reset puts the controller in REVIEW without an analysis, where no panel renders.
   */
  lemma LateGenerationFailureAfterReset(w: World, req: GenerationRequest, message: string, timestamp: int)
    requires w.session.state == GeneratingAds && w.pendingGeneration == Some(req)
    ensures Step(w, HardReset).pendingGeneration == Some(req)
    ensures var r := Step(Step(w, HardReset), GenerationSettled(req, GenerationFailed(message), timestamp));
      r.session.state == Review && r.session.analysis.None? && !PanelShown(r.session) && !Coherent(r.session)
  {
  }

  /** Whatever the order of events, every saved item is image-less. */
  lemma {:induction false} SavedItemsImageless(w: World, events: seq<Event>)
    requires forall k :: 0 <= k < |w.saved| ==> w.saved[k].images == []
    ensures forall k :: 0 <= k < |Run(w, events).saved| ==> Run(w, events).saved[k].images == []
  {
    if events != [] {
      var n := |events| - 1;
      SavedItemsImageless(w, events[..n]);
      var before := Run(w, events[..n]);
      var r := Run(w, events);
      assert r == Step(before, events[n]);
      forall k | |before.saved| <= k < |r.saved|
        ensures r.saved[k].images == []
      {
        assert SavedBy(r.saved[k], events[n]);
      }
    }
  }

  /** The item an event saves, if any. */
  predicate SavedBy(item: HistoryItem, e: Event) {
    || (e.AnalysisSettled? && e.outcome.Analyzed?
        && item == AnalysisSnapshot(e.request, e.outcome.result, e.timestamp))
    || (e.GenerationSettled? && e.generationOutcome.Generated?
        && GenerationSnapshots(e.generation, e.generationOutcome.ads, e.timestamp) == [item])
  }

  /**
   * The settling event was offered with the request that its start phase
   * issued, and that request matches the session it settles in.
   */
  predicate IssuedRequest(w: World, e: Event) {
    match e
    case AnalysisSettled(req, _, _, _) =>
      w.pendingAnalysis == Some(req) && w.session.sessionId == Some(req.sessionId)
    case GenerationSettled(req, _, _) =>
      w.pendingGeneration == Some(req) && GenerationRequestFor(w.session) == Some(req)
    case _ => false
  }

  /**
   * Every saved item was saved by a successful analysis or a successful
   * generation of the trace. When the trace is one of offered events, that
   * event settled the request its phase issued, and the item carries the
   * session id the controller held at that moment.
   */
  lemma {:induction false} SavedItemsRecorded(w: World, events: seq<Event>)
    requires w.saved == []
    ensures forall k :: 0 <= k < |Run(w, events).saved| ==>
      exists j :: 0 <= j < |events| && SavedBy(Run(w, events).saved[k], events[j])
    ensures Agrees(w) && EnabledTrace(w, events) ==>
      forall k :: 0 <= k < |Run(w, events).saved| ==>
        exists j :: 0 <= j < |events| && SavedBy(Run(w, events).saved[k], events[j])
          && IssuedRequest(Run(w, events[..j]), events[j])
          && Run(w, events[..j]).session.sessionId == Some(Run(w, events).saved[k].id)
  {
    if events != [] {
      var n := |events| - 1;
      var prefix := events[..n];
      SavedItemsRecorded(w, prefix);
      var before := Run(w, prefix);
      var r := Run(w, events);
      assert r == Step(before, events[n]);
      assert events[..n] == prefix;
      var offered := Agrees(w) && EnabledTrace(w, events);
      if offered {
        RunKeepsAgreement(w, prefix);
      }
      forall k | 0 <= k < |r.saved|
        ensures exists j :: 0 <= j < |events| && SavedBy(r.saved[k], events[j])
        ensures offered ==>
          exists j :: 0 <= j < |events| && SavedBy(r.saved[k], events[j])
            && IssuedRequest(Run(w, events[..j]), events[j])
            && Run(w, events[..j]).session.sessionId == Some(r.saved[k].id)
      {
        if k < |before.saved| {
          assert r.saved[k] == before.saved[k];
          assert exists j :: 0 <= j < |prefix| && SavedBy(before.saved[k], prefix[j]);
          var j :| 0 <= j < |prefix| && SavedBy(before.saved[k], prefix[j]);
          assert prefix[j] == events[j];
          if offered {
            var i :| 0 <= i < |prefix| && SavedBy(before.saved[k], prefix[i])
              && IssuedRequest(Run(w, prefix[..i]), prefix[i])
              && Run(w, prefix[..i]).session.sessionId == Some(before.saved[k].id);
            assert prefix[..i] == events[..i] && prefix[i] == events[i];
          }
        } else {
          assert SavedBy(r.saved[k], events[n]);
          if offered {
            assert Enabled(before, events[n]);
            assert IssuedRequest(before, events[n]);
          }
        }
      }
    } else {
      assert Run(w, events) == w;
    }
  }

  /**
   * An item with ads is only ever saved by a successful generation of those
   * ads. When the trace is one of offered events, that generation settled the
   * request issued by "generate", and the item's id, details and analysis are
   * those of the session it settled in.
   */
  lemma {:induction false} SavedAdsFollowGeneration(w: World, events: seq<Event>, k: nat)
    requires w.saved == []
    requires k < |Run(w, events).saved| && Run(w, events).saved[k].ads.Some?
    ensures var item := Run(w, events).saved[k];
      exists j :: 0 <= j < |events| && events[j].GenerationSettled? && events[j].generationOutcome == Generated(item.ads.value)
        && events[j].generation.sessionId == Some(item.id) && item.id != ""
    ensures Agrees(w) && EnabledTrace(w, events) ==>
      var item := Run(w, events).saved[k];
      exists j :: 0 <= j < |events| && events[j].GenerationSettled? && events[j].generationOutcome == Generated(item.ads.value)
        && Run(w, events[..j]).pendingGeneration == Some(events[j].generation)
        && Run(w, events[..j]).session.state == GeneratingAds
        && Run(w, events[..j]).session.sessionId == Some(item.id) && item.id != ""
        && Run(w, events[..j]).session.analysis == Some(item.analysis)
        && Run(w, events[..j]).session.carDetails == item.carDetails
  {
    SavedItemsRecorded(w, events);
    var item := Run(w, events).saved[k];
    var j :| 0 <= j < |events| && SavedBy(item, events[j]);
    assert events[j].GenerationSettled?;
    if Agrees(w) && EnabledTrace(w, events) {
      var i :| 0 <= i < |events| && SavedBy(item, events[i])
        && IssuedRequest(Run(w, events[..i]), events[i])
        && Run(w, events[..i]).session.sessionId == Some(item.id);
      var at := Run(w, events[..i]);
      assert events[i].GenerationSettled?;
      var req := events[i].generation;
      assert GenerationRequestFor(at.session) == Some(req);
      EnabledPrefix(w, events, i);
      assert at.session.state == GeneratingAds;
    }
  }

  /** Every prefix of an offered trace is offered, and its next event is enabled where the prefix leaves off. */
  lemma {:induction false} EnabledPrefix(w: World, events: seq<Event>, i: nat)
    requires EnabledTrace(w, events) && i < |events|
    ensures EnabledTrace(w, events[..i]) && Enabled(Run(w, events[..i]), events[i])
  {
    var n := |events| - 1;
    if i < n {
      assert events[..n][..i] == events[..i] && events[..n][i] == events[i];
      EnabledPrefix(w, events[..n], i);
    } else {
      assert events[..i] == events[..n];
    }
  }

  /** The analyses an event brings in from outside. */
  predicate IncomingScored(e: Event) {
    match e
    case AnalysisSettled(_, outcome, _, _) => outcome.Analyzed? ==> ScoreInRange(outcome.result)
    case GenerationSettled(req, _, _) => ScoreInRange(req.analysis)
    case RestoreSession(item) => ScoreInRange(item.analysis)
    case _ => true
  }

  predicate Scored(w: World) {
    && (w.session.analysis.Some? ==> ScoreInRange(w.session.analysis.value))
    && forall k :: 0 <= k < |w.saved| ==> ScoreInRange(w.saved[k].analysis)
  }

  /** The controller holds and saves only analyses it was given: in-range scores stay in range. */
  lemma {:induction false} RunKeepsScores(w: World, events: seq<Event>)
    requires Scored(w)
    requires forall j :: 0 <= j < |events| ==> IncomingScored(events[j])
    ensures Scored(Run(w, events))
  {
    if events != [] {
      var n := |events| - 1;
      RunKeepsScores(w, events[..n]);
      assert IncomingScored(events[n]);
    }
  }

  /** The analyses an event brings in from the analyser or from the history store. */
  predicate ExternalScored(e: Event) {
    match e
    case AnalysisSettled(_, outcome, _, _) => outcome.Analyzed? ==> ScoreInRange(outcome.result)
    case RestoreSession(item) => ScoreInRange(item.analysis)
    case _ => true
  }

  /**
   * Along offered events a generation request carries the session's own
   * analysis, so only the analyser's results and restored items need to be in range.
   */
  lemma {:induction false} OfferedRunKeepsScores(w: World, events: seq<Event>)
    requires Scored(w) && Agrees(w) && EnabledTrace(w, events)
    requires forall j :: 0 <= j < |events| ==> ExternalScored(events[j])
    ensures Scored(Run(w, events))
  {
    if events != [] {
      var n := |events| - 1;
      OfferedRunKeepsScores(w, events[..n]);
      RunKeepsAgreement(w, events[..n]);
      var before := Run(w, events[..n]);
      assert Enabled(before, events[n]);
      assert ExternalScored(events[n]);
      if events[n].GenerationSettled? {
        assert GenerationRequestFor(before.session) == Some(events[n].generation);
      }
    }
  }
}
