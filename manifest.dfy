/**
 * Checking the HLS master playlist before the streaming engine is attached
 * (`verifyManifest` inside `initPlayer`), and turning an initialisation
 * failure into the message the player shows.
 *
 * `fetch` is not modelled: the outcome of the k-th request is the k-th
 * element of `fetches`, either a response (status and body text) or a
 * rejected promise with its message (network failure, CORS refusal).
 */
module Manifest {
  import opened Wrappers
  import opened JsText

  const Retries: nat := 2
  const BackoffStepMs: nat := 500
  const Signature := "#EXTM3U"
  const InvalidFormatMessage := "Invalid HLS manifest format"
  const UnsupportedMessage := "Your browser doesn't support HLS streaming"
  const NotFoundMessage := "Video not found on server"
  const CorsMessage := "Network error (check CORS configuration)"
  const DefaultApiBase := "http://localhost:3000"
  const StreamPath := "/api/videos/stream/"
  const PlaylistFile := "/master.m3u8"

  datatype FetchOutcome = Response(status: nat, body: string) | Rejected(message: string) {
    /** `response.ok`: the status is in the success range */
    predicate Ok() {
      Response? && 200 <= status <= 299
    }
  }

  datatype Verdict = Verified | Failed(message: string)

  /** The playlist URL: the configured API base (or the local default), then
      the stream path of the video */
  function ManifestUrl(apiBase: Option<string>, videoId: string): (url: string)
    ensures apiBase.Some? && apiBase.value != "" ==>
      |apiBase.value| <= |url| && url[..|apiBase.value|] == apiBase.value
    ensures !(apiBase.Some? && apiBase.value != "") ==>
      |DefaultApiBase| <= |url| && url[..|DefaultApiBase|] == DefaultApiBase
    ensures |videoId| + |PlaylistFile| <= |url|
    ensures url[|url| - |PlaylistFile|..] == PlaylistFile
    ensures url[|url| - |PlaylistFile| - |videoId|..|url| - |PlaylistFile|] == videoId
  {
    var base := if apiBase.Some? && apiBase.value != "" then apiBase.value else DefaultApiBase;
    base + StreamPath + videoId + PlaylistFile
  }

  /** With the API base fixed, different videos have different playlist URLs */
  lemma {:induction false} ManifestUrlInjective(apiBase: Option<string>, a: string, b: string)
    ensures ManifestUrl(apiBase, a) == ManifestUrl(apiBase, b) <==> a == b
  {
    var ua, ub := ManifestUrl(apiBase, a), ManifestUrl(apiBase, b);
    if ua == ub {
      var base := if apiBase.Some? && apiBase.value != "" then apiBase.value else DefaultApiBase;
      assert |a| == |b| by {
        assert |ua| == |base| + |StreamPath| + |a| + |PlaylistFile|;
        assert |ub| == |base| + |StreamPath| + |b| + |PlaylistFile|;
      }
    }
  }

  /** The error one attempt throws, or None when the attempt succeeds */
  function AttemptError(f: FetchOutcome): (e: Option<string>)
    ensures e.None? <==> f.Ok() && Contains(f.body, Signature)
  {
    match f
    case Rejected(message) => Some(message)
    case Response(status, body) =>
      if !f.Ok() then Some("HTTP " + NatToString(status))
      else if !Contains(body, Signature) then Some(InvalidFormatMessage)
      else None
  }

  predicate Accepted(f: FetchOutcome) {
    AttemptError(f).None?
  }

  /** How verification ends when attempts `i`, `i + 1`, ... are still to be made:
      verified as soon as one attempt is accepted, otherwise the last attempt's
      error is rethrown */
  function VerdictFrom(fetches: seq<FetchOutcome>, i: nat): (v: Verdict)
    requires i < Retries <= |fetches|
    decreases Retries - i
    ensures v.Verified? <==> exists k :: i <= k < Retries && Accepted(fetches[k])
    ensures v.Failed? ==> v.message == AttemptError(fetches[Retries - 1]).value
  {
    match AttemptError(fetches[i])
    case None => Verified
    case Some(e) => if i == Retries - 1 then Failed(e) else VerdictFrom(fetches, i + 1)
  }

  /** How many requests are made when attempts `i`, `i + 1`, ... are still to be made */
  function AttemptsFrom(fetches: seq<FetchOutcome>, i: nat): (n: nat)
    requires i < Retries <= |fetches|
    decreases Retries - i
    ensures i < n <= Retries
    ensures forall k :: i <= k < n - 1 ==> !Accepted(fetches[k])
    ensures n < Retries ==> Accepted(fetches[n - 1])
  {
    if Accepted(fetches[i]) || i == Retries - 1 then i + 1 else AttemptsFrom(fetches, i + 1)
  }

  /** The delays slept after the first `n` failed attempts: 500 ms times the attempt number */
  function Backoffs(n: nat): (w: seq<nat>)
    ensures |w| == n
  {
    seq(n, k => BackoffStepMs * (k + 1))
  }

  /** `verifyManifest(url)`: at most `Retries` requests, with a wait between
      consecutive ones and none after the last */
  method VerifyManifest(fetches: seq<FetchOutcome>) returns (verdict: Verdict, attempts: nat, waits: seq<nat>)
    requires Retries <= |fetches|
    ensures verdict == VerdictFrom(fetches, 0)
    ensures attempts == AttemptsFrom(fetches, 0)
    ensures waits == Backoffs(attempts - 1)
  {
    verdict, attempts, waits := Failed(""), 0, [];
    for i := 0 to Retries
      invariant attempts == i
      invariant forall k :: 0 <= k < i ==> !Accepted(fetches[k])
      invariant waits == Backoffs(if i < Retries then i else i - 1)
      invariant i > 0 ==> verdict == Failed(AttemptError(fetches[i - 1]).value)
    {
      attempts := i + 1;
      var error := AttemptError(fetches[i]);
      if error.None? {
        verdict := Verified;
        return;
      }
      // the last attempt's error is the one rethrown
      verdict := Failed(error.value);
      if i < Retries - 1 {
        waits := waits + [BackoffStepMs * (i + 1)];
      }
    }
  }

  /** The only wait is the 500 ms one between the first and the second request,
      and it happens exactly when the first request fails */
  lemma OnlyWaitIsBetweenAttempts(fetches: seq<FetchOutcome>)
    requires Retries <= |fetches|
    ensures var waits := Backoffs(AttemptsFrom(fetches, 0) - 1);
      (waits == [500] <==> !Accepted(fetches[0])) && (waits == [] <==> Accepted(fetches[0]))
  {
    var n := AttemptsFrom(fetches, 0);
    if Accepted(fetches[0]) {
      assert n == 1;
    } else {
      assert n == 2;
      assert Backoffs(1)[0] == 500;
    }
  }

  /** The catch block of `initPlayer`: a message mentioning 404 or CORS is
      replaced by a friendlier one, any other message is shown as it is */
  function InitErrorMessage(message: string): (shown: string)
    ensures shown == message || shown == NotFoundMessage || shown == CorsMessage
    ensures message != "" ==> shown != ""
  {
    if Contains(message, "404") then NotFoundMessage
    else if Contains(message, "CORS") then CorsMessage
    else message
  }

  /** The friendlier texts are left alone by the same mapping: the not-found
      text mentions neither 404 nor CORS, and the CORS text maps to itself */
  lemma InitErrorMessageIdempotent(message: string)
    ensures InitErrorMessage(InitErrorMessage(message)) == InitErrorMessage(message)
  {
    NotContainsWithoutFirst(NotFoundMessage, "404");
    NotContainsWithoutFirst(NotFoundMessage, "CORS");
    NotContainsWithoutFirst(CorsMessage, "404");
    assert CorsMessage[21..25] == "CORS";
    ContainsWitness(CorsMessage, "CORS", 21);
  }

  /** A 404 response is rejected with the message "HTTP 404" */
  lemma NotFoundAttempt(f: FetchOutcome)
    requires f.Response? && f.status == 404
    ensures AttemptError(f) == Some("HTTP 404")
  {
    assert NatToString(404) == "404" by {
      assert NatToString(40) == "40" by { assert NatToString(4) == "4"; }
    }
    assert "HTTP " + "404" == "HTTP 404";
  }

  /** Two 404 responses end verification after both requests, with the
      not-found message */
  lemma NotFoundAfterTwo404s(fetches: seq<FetchOutcome>)
    requires Retries <= |fetches|
    requires forall k :: 0 <= k < Retries ==> fetches[k].Response? && fetches[k].status == 404
    ensures AttemptsFrom(fetches, 0) == 2
    ensures VerdictFrom(fetches, 0) == Failed("HTTP 404")
    ensures InitErrorMessage("HTTP 404") == NotFoundMessage
  {
    NotFoundAttempt(fetches[0]);
    NotFoundAttempt(fetches[1]);
    NotFoundMessageFor404();
  }

  lemma NotFoundMessageFor404()
    ensures InitErrorMessage("HTTP 404") == NotFoundMessage
  {
    ContainsWitness("HTTP 404", "404", 5);
  }

  /** A successful response whose body lacks `#EXTM3U` twice fails like a
      network error, and its message is shown unchanged */
  lemma InvalidManifestShownVerbatim(fetches: seq<FetchOutcome>)
    requires Retries <= |fetches|
    requires forall k :: 0 <= k < Retries ==> fetches[k].Ok() && !Contains(fetches[k].body, Signature)
    ensures VerdictFrom(fetches, 0) == Failed(InvalidFormatMessage)
    ensures InitErrorMessage(InvalidFormatMessage) == InvalidFormatMessage
  {
    assert AttemptError(fetches[1]) == Some(InvalidFormatMessage);
    InvalidFormatKept();
  }

  lemma InvalidFormatKept()
    ensures InitErrorMessage(InvalidFormatMessage) == InvalidFormatMessage
  {
    NotContainsWithoutFirst(InvalidFormatMessage, "404");
    NotContainsWithoutFirst(InvalidFormatMessage, "CORS");
  }

  /** The unsupported-browser error is shown as it is */
  lemma UnsupportedShownVerbatim()
    ensures InitErrorMessage(UnsupportedMessage) == UnsupportedMessage
  {
    NotContainsWithoutFirst(UnsupportedMessage, "404");
    NotContainsWithoutFirst(UnsupportedMessage, "CORS");
  }

  /** The 404 check wins over the CORS check when a message mentions both,
      and a rejection mentioning only CORS gets the CORS message */
  lemma InitErrorPrecedence(message: string)
    ensures Contains(message, "404") ==> InitErrorMessage(message) == NotFoundMessage
    ensures !Contains(message, "404") && Contains(message, "CORS") ==> InitErrorMessage(message) == CorsMessage
    ensures InitErrorMessage(message) != message ==> Contains(message, "404") || Contains(message, "CORS")
  {
  }
}
