/** Settled results of the calls the email processor makes to code it does not
    own (the form decoder, the record store, blob storage, the file system),
    and how `Promise.all` combines them. Nothing here waits: every promise is
    represented by the way it settled. */
module Outcomes {

  /** The value a rejected promise carries. Its content is whatever the
      external service threw; the processor only passes it on. */
  type Error = string

  datatype Option<+T> = None | Some(value: T)

  /** A call that yields a value when it succeeds. */
  datatype Result<+T> = Ok(value: T) | Err(error: Error)

  /** A settled promise whose resolution value is of no interest. */
  datatype Outcome = Resolved | Rejected(error: Error)

  /** `Promise.all` over promises that have all settled. It resolves exactly
      when every input resolved; otherwise it rejects with the error of a
      rejected input. In the running program the rejection that settles first
      wins, which depends on timing; this model takes the first rejected input
      in listing order, and its contract promises no more than "one of the
      rejections". */
  function All(outcomes: seq<Outcome>): (r: Outcome)
    ensures r.Resolved? <==> forall i :: 0 <= i < |outcomes| ==> outcomes[i].Resolved?
    ensures r.Rejected? ==> exists i :: 0 <= i < |outcomes| && outcomes[i] == r
    decreases |outcomes|
  {
    if |outcomes| == 0 then Resolved
    else if outcomes[0].Rejected? then outcomes[0]
    else
      var rest := All(outcomes[1..]);
      assert rest.Rejected? ==> exists i :: 1 <= i < |outcomes| && outcomes[i] == rest by {
        if rest.Rejected? {
          var j :| 0 <= j < |outcomes| - 1 && outcomes[1..][j] == rest;
          assert outcomes[j + 1] == rest;
        }
      }
      rest
  }

  /** `Promise.all` over two promises. */
  function Both(first: Outcome, second: Outcome): (r: Outcome)
    ensures r.Resolved? <==> first.Resolved? && second.Resolved?
    ensures r.Rejected? ==> r == first || r == second
  {
    var pair := [first, second];
    var r := All(pair);
    assert first == pair[0] && second == pair[1];
    assert r.Rejected? ==> r == pair[0] || r == pair[1];
    r
  }
}
