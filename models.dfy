/**
 * The persisted records: a session, the venues stored for it, and the votes cast on them.
 * A nullable column is an `Option`; a non-nullable one is a plain value. Columns that hold
 * `json.dumps(...)` text are represented by the value they encode.
 */
module Models {
  import opened Wrappers

  /** The values the backend ever writes into `sessions.status`. */
  datatype Status = WaitingForB | ReadyToCompute | Computing | Voting | Completed {

    /** The string stored in the column and sent to the client. */
    function Name(): string {
      match this
      case WaitingForB => "waiting_for_b"
      case ReadyToCompute => "ready_to_compute"
      case Computing => "computing"
      case Voting => "voting"
      case Completed => "completed"
    }
  }

  /** Reads a stored status string back; any other string is not a status. */
  function ParseStatus(s: string): (r: Option<Status>)
    ensures r.Some? ==> r.value.Name() == s
    ensures r.None? <==> forall st: Status :: st.Name() != s
  {
    if s == "waiting_for_b" then Some(WaitingForB)
    else if s == "ready_to_compute" then Some(ReadyToCompute)
    else if s == "computing" then Some(Computing)
    else if s == "voting" then Some(Voting)
    else if s == "completed" then Some(Completed)
    else None
  }

  /** Every status survives being stored and read back. */
  lemma ParseName(st: Status)
    ensures ParseStatus(st.Name()) == Some(st)
  {
  }

  /** A latitude/longitude pair; the model never computes with coordinates. */
  datatype Coord = Coord(lat: real, lng: real)

  /** One provider review: its star rating and the text under `text.text`, each possibly absent. */
  datatype Review = Review(rating: Option<int>, text: Option<string>)

  /** A row of `venues`; `sessionId` names the owning session, rating and count are required. */
  datatype VenueRow = VenueRow(
    id: string,
    sessionId: string,
    googlePlaceId: string,
    name: string,
    address: Option<string>,
    lat: real,
    lng: real,
    rating: real,
    userRatingCount: int,
    priceLevel: Option<string>,
    googleMapsUri: Option<string>,
    types: Option<seq<string>>,
    description: Option<string>,
    cuisineTags: Option<seq<string>>,
    vibeTags: Option<seq<string>>,
    bestFor: Option<seq<string>>,
    signatureDish: Option<string>,
    reviewSentiment: Option<map<string, real>>,
    standoutDishes: Option<seq<string>>,
    reviewSummary: Option<string>,
    reviewHighlights: Option<seq<string>>,
    editorialSummary: Option<string>,
    rawReviewsCache: Option<seq<Review>>)

  /** A row of `votes`: one voter's choice of one venue in one session, with its time. */
  datatype Vote = Vote(id: string, sessionId: string, venueId: string, voter: string, createdAt: int)

  /** The column values of a `sessions` row at one moment. */
  datatype SessionRecord = SessionRecord(
    status: Status, userALat: real, userALng: real, userALabel: Option<string>,
    userBLat: Option<real>, userBLng: Option<real>, userBLabel: Option<string>,
    midpointLat: Option<real>, midpointLng: Option<real>,
    userATravelTime: Option<int>, userBTravelTime: Option<int>, travelMode: string,
    winnerVenueId: Option<string>, pinCode: Option<string>, warning: Option<string>,
    createdAt: int, updatedAt: int)

  /** A row of `sessions`; the compute transition updates its fields in place. */
  class Session {
    const id: string
    var status: Status
    var userALat: real
    var userALng: real
    var userALabel: Option<string>
    var userBLat: Option<real>
    var userBLng: Option<real>
    var userBLabel: Option<string>
    var midpointLat: Option<real>
    var midpointLng: Option<real>
    var userATravelTime: Option<int>
    var userBTravelTime: Option<int>
    var travelMode: string
    var winnerVenueId: Option<string>
    var pinCode: Option<string>
    var warning: Option<string>
    var createdAt: int
    var updatedAt: int

    /**
     * A new row given only its non-nullable columns without defaults: the status starts
     * at `waiting_for_b`, the travel mode at `transit`, and every nullable column is null.
     */
    constructor (id: string, userALat: real, userALng: real, createdAt: int, updatedAt: int)
      ensures this.id == id && this.userALat == userALat && this.userALng == userALng
      ensures this.createdAt == createdAt && this.updatedAt == updatedAt
      ensures status == WaitingForB && travelMode == "transit"
      ensures userALabel.None? && userBLat.None? && userBLng.None? && userBLabel.None?
      ensures midpointLat.None? && midpointLng.None?
      ensures userATravelTime.None? && userBTravelTime.None?
      ensures winnerVenueId.None? && pinCode.None? && warning.None?
    {
      this.id := id;
      this.userALat := userALat;
      this.userALng := userALng;
      this.createdAt := createdAt;
      this.updatedAt := updatedAt;
      status := WaitingForB;
      travelMode := "transit";
      userALabel, userBLat, userBLng, userBLabel := None, None, None, None;
      midpointLat, midpointLng := None, None;
      userATravelTime, userBTravelTime := None, None;
      winnerVenueId, pinCode, warning := None, None, None;
    }

    /** The row's current column values (all but the key). */
    function Snapshot(): SessionRecord
      reads this
    {
      SessionRecord(status, userALat, userALng, userALabel, userBLat, userBLng, userBLabel,
                    midpointLat, midpointLng, userATravelTime, userBTravelTime, travelMode,
                    winnerVenueId, pinCode, warning, createdAt, updatedAt)
    }
  }
}
