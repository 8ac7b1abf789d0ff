/**
 * The availability check of one TestFlight page (`checkAppStatus`).
 * The HTTP GET and the body read are replaced by their outcome.
 */
module Availability {
  import opened Text

  /** The text a TestFlight page shows when the beta has no free slot. */
  const Marker: string := "This beta is full"

  /** What reading the response body gave. */
  datatype ReadOutcome = ReadFailed | ReadBody(body: string)

  /** What the GET request gave: a transport failure, or a response with a status code. */
  datatype FetchOutcome = FetchFailed | Responded(status: int, read: ReadOutcome)

  /** The three ways a check fails. */
  datatype CheckError = FetchError | UnexpectedStatus(code: int) | ReadError

  /** A classification (available or not), or the error that prevented one. */
  datatype CheckResult = Checked(available: bool) | CheckFailed(error: CheckError)

  /**
   * Classifies a fetched page. The status is examined before the body is read,
   * so a non-200 response is an error whatever its body.
   */
  function CheckAppStatus(fetch: FetchOutcome): (r: CheckResult)
    ensures fetch.FetchFailed? ==> r == CheckFailed(FetchError)
    ensures fetch.Responded? && fetch.status != 200 ==> r == CheckFailed(UnexpectedStatus(fetch.status))
    ensures fetch.Responded? && fetch.status == 200 && fetch.read.ReadFailed? ==> r == CheckFailed(ReadError)
    ensures r.Checked? <==> fetch.Responded? && fetch.status == 200 && fetch.read.ReadBody?
    ensures r.Checked? ==> (r.available <==> forall i: nat :: !OccursAt(fetch.read.body, Marker, i))
  {
    match fetch
    case FetchFailed => CheckFailed(FetchError)
    case Responded(status, read) =>
      if status != 200 then CheckFailed(UnexpectedStatus(status))
      else match read
        case ReadFailed => CheckFailed(ReadError)
        case ReadBody(body) =>
          ContainsIff(body, Marker);
          Checked(!Contains(body, Marker))
  }

  /** A 200 page showing the marker anywhere is classified unavailable. */
  lemma MarkerMeansUnavailable(prefix: string, suffix: string)
    ensures CheckAppStatus(Responded(200, ReadBody(prefix + Marker + suffix))) == Checked(false)
  {
    ContainsPiece(prefix, Marker, suffix);
  }

  /** A 200 page is classified available exactly when the marker occurs nowhere in it. */
  lemma AvailableIff(body: string)
    ensures CheckAppStatus(Responded(200, ReadBody(body))) == Checked(true)
            <==> forall i: nat :: !OccursAt(body, Marker, i)
  {
  }

  /** Scenario: a full beta page. */
  lemma FullPageIsUnavailable()
    ensures CheckAppStatus(Responded(200, ReadBody("This beta is full."))) == Checked(false)
  {
    assert "This beta is full." == "" + Marker + ".";
    MarkerMeansUnavailable("", ".");
  }

  /** Scenario: an open beta page. */
  lemma OpenPageIsAvailable()
    ensures CheckAppStatus(Responded(200, ReadBody("Join the beta now"))) == Checked(true)
  {
    var body := "Join the beta now";
    forall i: nat ensures !OccursAt(body, Marker, i) {
      if i == 0 {
        assert body[0] != Marker[0];
      }
    }
  }

  /** Scenario: a 503 response is an error carrying its status, whatever the body. */
  lemma ServiceUnavailableIsError(read: ReadOutcome)
    ensures CheckAppStatus(Responded(503, read)) == CheckFailed(UnexpectedStatus(503))
  {
  }
}
