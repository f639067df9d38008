/**
 * The `App` component's state as an object whose handlers assign its fields
 * one setter at a time. Every handler method leaves the object in the state
 * the workflow's `Step` prescribes for the matching event; `saved` records
 * the items handed to `saveHistoryItem`, `revoked` the URLs handed to
 * `URL.revokeObjectURL`, and the two pending fields the requests of the
 * handler calls still in flight.
 */
module Controller {
  import opened Types
  import Cleanup
  import opened Workflow

  class App {
    var appState: AppState
    var images: seq<string>
    var base64Images: seq<string>
    var carDetails: CarDetails
    var analysis: Option<AnalysisResult>
    var ads: Option<AdContent>
    var currentSessionId: Option<string>
    var activeImageIndex: int
    ghost var pendingAnalysis: Option<AnalysisRequest>
    ghost var pendingGeneration: Option<GenerationRequest>
    ghost var saved: seq<HistoryItem>
    ghost var revoked: seq<string>

    /** The abstract state of the controller. */
    ghost function Current(): World
      reads this
    {
      World(
        Session(appState, images, base64Images, carDetails, analysis, ads, currentSessionId, activeImageIndex),
        pendingAnalysis, pendingGeneration, saved, revoked)
    }

    /** The controller is coherent and its in-flight requests agree with it. */
    ghost predicate Valid()
      reads this
    {
      Coherent(Current().session) && Agrees(Current())
    }

    /** The initial `useState` values. */
    constructor ()
      ensures Current() == Initial()
      ensures Valid()
    {
      appState := Idle;
      images := [];
      base64Images := [];
      carDetails := BlankCarDetails();
      analysis := None;
      ads := None;
      currentSessionId := None;
      activeImageIndex := 0;
      pendingAnalysis := None;
      pendingGeneration := None;
      saved := [];
      revoked := [];
    }

    /** An offered event keeps a valid controller valid. */
    lemma KeepsValid(e: Event)
      ensures Valid() && Enabled(Current(), e) ==> Coherent(Step(Current(), e).session) && Agrees(Step(Current(), e))
    {
      if Valid() && Enabled(Current(), e) {
        StepKeepsCoherent(Current(), e);
        StepKeepsAgreement(Current(), e);
      }
    }

    /** `setImages`, with the cleanup effect that revokes the replaced blob URLs. */
    method SetImages(urls: seq<string>)
      modifies this`images, this`revoked
      ensures images == urls
      ensures revoked == old(revoked) + Cleanup.BlobUrls(old(images))
    {
      var released := Cleanup.RevokeBlobUrls(images);
      revoked := revoked + released;
      images := urls;
    }

    /** `handleStartAnalysis` up to its first `await`; `freshId` stands for `Date.now().toString()`. */
    method StartAnalysis(details: CarDetails, fileCount: nat, freshId: string) returns (request: AnalysisRequest)
      modifies this
      ensures request == AnalysisRequestFor(old(Current()).session, freshId, details, fileCount)
      ensures Current() == Step(old(Current()), Event.StartAnalysis(freshId, details, fileCount))
      ensures old(Valid()) && Enabled(old(Current()), Event.StartAnalysis(freshId, details, fileCount)) ==> Valid()
    {
      KeepsValid(Event.StartAnalysis(freshId, details, fileCount));
      appState := Analyzing;
      activeImageIndex := 0;
      var sessionId := if Truthy(currentSessionId) then currentSessionId.value else freshId;
      currentSessionId := Some(sessionId);
      request := AnalysisRequest(sessionId, details, fileCount);
      pendingAnalysis := Some(request);
    }

    /**
     * The rest of `handleStartAnalysis`, once encoding and analysis have
     * settled; `displayUrls` stands for the URLs created for the files and
     * `timestamp` for `Date.now()`.
     */
    method SettleAnalysis(request: AnalysisRequest, outcome: AnalysisOutcome, displayUrls: seq<string>, timestamp: int)
      modifies this
      ensures Current() == Step(old(Current()), AnalysisSettled(request, outcome, displayUrls, timestamp))
      ensures old(Valid()) && Enabled(old(Current()), AnalysisSettled(request, outcome, displayUrls, timestamp)) ==> Valid()
    {
      KeepsValid(AnalysisSettled(request, outcome, displayUrls, timestamp));
      pendingAnalysis := None;
      match outcome
      case Analyzed(base64s, result) =>
        SetImages(displayUrls);
        base64Images := base64s;
        carDetails := request.details;
        analysis := Some(result);
        appState := Review;
        var newItem := HistoryItem(request.sessionId, timestamp, request.details, result, None, []);
        saved := saved + [newItem];
      case AnalysisFailed(_) =>
        appState := Idle;
    }

    /** `handleGenerateAds` up to its `await`: nothing happens without an analysis. */
    method GenerateAds() returns (request: Option<GenerationRequest>)
      modifies this
      ensures request == GenerationRequestFor(old(Current()).session)
      ensures Current() == Step(old(Current()), Event.GenerateAds)
      ensures old(Valid()) && Enabled(old(Current()), Event.GenerateAds) ==> Valid()
    {
      KeepsValid(Event.GenerateAds);
      if analysis.None? {
        return None;
      }
      appState := GeneratingAds;
      request := Some(GenerationRequest(analysis.value, base64Images, carDetails, currentSessionId));
      pendingGeneration := request;
    }

    /** The rest of `handleGenerateAds`, once generation has settled. */
    method SettleGeneration(request: GenerationRequest, outcome: GenerationOutcome, timestamp: int)
      modifies this
      ensures Current() == Step(old(Current()), GenerationSettled(request, outcome, timestamp))
      ensures old(Valid()) && Enabled(old(Current()), GenerationSettled(request, outcome, timestamp)) ==> Valid()
    {
      KeepsValid(GenerationSettled(request, outcome, timestamp));
      pendingGeneration := None;
      match outcome
      case Generated(generated) =>
        ads := Some(generated);
        appState := Done;
        if Truthy(request.sessionId) {
          var newItem := HistoryItem(request.sessionId.value, timestamp, request.carDetails,
                                     request.analysis, Some(generated), []);
          saved := saved + [newItem];
        }
      case GenerationFailed(_) =>
        appState := Review;
    }

    /** `handleHardReset`. */
    method HardReset()
      modifies this
      ensures Current() == Step(old(Current()), Event.HardReset)
      ensures old(Valid()) && Enabled(old(Current()), Event.HardReset) ==> Valid()
    {
      KeepsValid(Event.HardReset);
      appState := Idle;
      SetImages([]);
      base64Images := [];
      carDetails := BlankCarDetails();
      analysis := None;
      ads := None;
      currentSessionId := None;
      activeImageIndex := 0;
    }

    /** `handleRestoreSession`. */
    method RestoreSession(item: HistoryItem)
      modifies this
      ensures Current() == Step(old(Current()), Event.RestoreSession(item))
      ensures old(Valid()) && Enabled(old(Current()), Event.RestoreSession(item)) ==> Valid()
    {
      KeepsValid(Event.RestoreSession(item));
      carDetails := item.carDetails;
      analysis := Some(item.analysis);
      ads := item.ads;
      SetImages(item.images);
      base64Images := item.images;
      currentSessionId := Some(item.id);
      activeImageIndex := 0;
      appState := if item.ads.Some? then Done else Review;
    }

    /** The "view existing ads" action of the review screen. */
    method ViewExisting()
      modifies this
      ensures Current() == Step(old(Current()), Event.ViewExisting)
      ensures old(Valid()) && Enabled(old(Current()), Event.ViewExisting) ==> Valid()
    {
      KeepsValid(Event.ViewExisting);
      appState := Done;
    }

    /** The "back" action of the ads screen. */
    method Back()
      modifies this
      ensures Current() == Step(old(Current()), Event.Back)
      ensures old(Valid()) && Enabled(old(Current()), Event.Back) ==> Valid()
    {
      KeepsValid(Event.Back);
      appState := Review;
    }

    /** A thumbnail click. */
    method SelectImage(index: int)
      modifies this
      ensures Current() == Step(old(Current()), Event.SelectImage(index))
      ensures old(Valid()) && Enabled(old(Current()), Event.SelectImage(index)) ==> Valid()
    {
      KeepsValid(Event.SelectImage(index));
      activeImageIndex := index;
    }
  }
}
