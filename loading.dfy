/** The acceptance rule shared by the two XHR load handlers: a load event is
    ignored until the request is done, accepted for HTTP 200 and for an
    HTTP 206 whose Content-Range covers the whole resource, and otherwise
    rejected with its status. */
module Loading {
  import opened Wrappers
  import opened Waveforms
  import opened ContentRange

  /** `XMLHttpRequest.readyState` once the request has completed. */
  const Done: int := 4

  /** The fields of the XHR a load handler reads. */
  datatype LoadEvent = LoadEvent(
    readyState: int,
    status: nat,
    contentRange: Option<string>,  // getResponseHeader('content-range')
    response: Payload)             // event.target.response

  datatype Verdict = Pending | Accepted | Rejected(status: nat)

  function Classify(e: LoadEvent): (v: Verdict)
    ensures v == Pending <==> e.readyState != Done
    ensures v == Accepted <==>
      e.readyState == Done &&
      (e.status == 200 || (e.status == 206 && DescribesWholeResource(e.contentRange)))
    ensures v.Rejected? ==> v.status == e.status
  {
    if e.readyState != Done then Pending
    else if e.status != 200 && !(e.status == 206 && HasValidContentRange(e.contentRange)) then
      Rejected(e.status)
    else Accepted
  }

  /** A rejected load reports the error for its status, and the status can
      be read back from the message text. */
  lemma RejectedLoadReportsStatus(e: LoadEvent)
    requires Classify(e).Rejected?
    ensures var m := Message(HttpStatus(Classify(e).status));
      |m| > |HttpStatusPrefix| && m[..|HttpStatusPrefix|] == HttpStatusPrefix &&
      Digits.IsDigits(m[|HttpStatusPrefix|..]) && Digits.Value(m[|HttpStatusPrefix|..]) == e.status
  {
    StatusInMessage(Classify(e).status);
  }

  /** A 206 response whose range is `bytes 0-<n-1>/<n>` is as good as a 200. */
  lemma WholePartialAccepted(readyState: int, length: nat, response: Payload)
    requires readyState == Done && length > 0
    ensures Classify(LoadEvent(readyState, 206, Some(RangeHeader(0, length - 1, length)), response)) == Accepted
  {
    AcceptsWholeResource(length);
  }

  /** A 206 response for any other range is rejected, and its error message
      names status 206. */
  lemma TruePartialRejected(first: nat, last: nat, length: nat, response: Payload)
    requires first != 0 || last + 1 != length
    ensures var v := Classify(LoadEvent(Done, 206, Some(RangeHeader(first, last, length)), response));
      v == Rejected(206) && Message(HttpStatus(v.status)) == HttpStatusPrefix + "206"
  {
    RejectsPartialRange(first, last, length);
    assert Digits.Decimal(2) == "2";
    assert Digits.Decimal(20) == "20";
    assert Digits.Decimal(206) == "206";
  }
}
