/** The data shapes that the sales-assistant workflow moves around (types.ts). */
module Types {

  /** A nullable value (`T | null`) or an optional field (`field?: T`). */
  datatype Option<+T> = None | Some(value: T)

  /** Marketing copy for the six sales channels; every channel text is required. */
  datatype AdContent = AdContent(
    olx: string,
    autoria: string,
    telegram: string,
    instagram: string,
    facebook: string,
    viber: string)

  /** The four fixed inspection areas reported by an analysis. */
  datatype InspectionDetails = InspectionDetails(
    optics: string,
    steering: string,
    seats: string,
    exterior: string)

  /** What the external analyser returns for one session. */
  datatype AnalysisResult = AnalysisResult(
    summary: string,
    score: int,
    checklist: seq<string>,
    details: InspectionDetails,
    defects: seq<string>,
    preparation: Option<string>)

  /** The documented range of a score. The controller itself never checks it. */
  predicate ScoreInRange(a: AnalysisResult) {
    1 <= a.score <= 100
  }

  /** The vehicle as entered by the user: six required texts and two optional ones. */
  datatype CarDetails = CarDetails(
    model: string,
    year: string,
    mileage: string,
    price: string,
    engineVolume: string,
    fuelType: string,
    trimLevel: Option<string>,
    additionalInfo: Option<string>)

  /**
   * A persisted session snapshot. The analysis is required, so a history
   * item never exists before an analysis; the ads stay null until generated.
   */
  datatype HistoryItem = HistoryItem(
    id: string,
    timestamp: int,
    carDetails: CarDetails,
    analysis: AnalysisResult,
    ads: Option<AdContent>,
    images: seq<string>)

  /** The five workflow states; no other state exists. */
  datatype AppState = Idle | Analyzing | Review | GeneratingAds | Done

  /** The details form as the controller starts with it and resets it to. */
  function BlankCarDetails(): CarDetails {
    CarDetails("", "", "", "", "", "", Some(""), Some(""))
  }
}
