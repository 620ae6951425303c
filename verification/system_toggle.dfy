/** The client's on/off control (Frontend/src/hooks/useSystemControl.ts):
    `isSystemOn` follows the last switch request the backend acknowledged,
    and `isLoading` is raised around each request. The response of a request
    is an input: the server answered with an ok or a non-ok status, or the
    request threw. */
module SystemToggle {

  datatype Response = Responded(ok: bool) | Threw

  predicate Acknowledged(response: Response)
  {
    response.Responded? && response.ok
  }

  /** A request for `target` (true for `/system/on`) moves the displayed
      state to `target` only when acknowledged. */
  function AfterRequest(isSystemOn: bool, target: bool, response: Response): (r: bool)
    ensures Acknowledged(response) ==> r == target
    ensures !Acknowledged(response) ==> r == isSystemOn
  {
    if Acknowledged(response) then target else isSystemOn
  }

  /** One request: its target and its response. */
  datatype Request = Request(target: bool, response: Response)

  /** The displayed state after a series of requests from the initial off. */
  function Displayed(reqs: seq<Request>): (on: bool)
    ensures |reqs| > 0 && Acknowledged(reqs[|reqs| - 1].response) ==> on == reqs[|reqs| - 1].target
    decreases |reqs|
  {
    if |reqs| == 0 then false
    else
      var last := reqs[|reqs| - 1];
      AfterRequest(Displayed(reqs[..|reqs| - 1]), last.target, last.response)
  }

  /** The displayed state is the target of the latest acknowledged request,
      or off when none was acknowledged. */
  lemma {:induction false} DisplayedIsLastAcknowledged(reqs: seq<Request>)
    ensures (forall i :: 0 <= i < |reqs| ==> !Acknowledged(reqs[i].response)) ==> !Displayed(reqs)
    ensures forall i ::
      (0 <= i < |reqs| && Acknowledged(reqs[i].response)
       && (forall j :: i < j < |reqs| ==> !Acknowledged(reqs[j].response)))
      ==> Displayed(reqs) == reqs[i].target
    decreases |reqs|
  {
    if |reqs| > 0 {
      var init := reqs[..|reqs| - 1];
      DisplayedIsLastAcknowledged(init);
      assert forall i :: 0 <= i < |init| ==> init[i] == reqs[i];
    }
  }

  /** A toggle flips the displayed state exactly when it is acknowledged. */
  lemma ToggleFlipsIffAcknowledged(isSystemOn: bool, response: Response)
    ensures AfterRequest(isSystemOn, !isSystemOn, response) != isSystemOn <==> Acknowledged(response)
  {
  }

  /** The hook's two state cells. */
  class SystemControlHook {
    var isSystemOn: bool
    var isLoading: bool

    constructor ()
      ensures !isSystemOn && !isLoading
    {
      isSystemOn, isLoading := false, false;
    }

    /** One awaited request for `target`. The ghost `loadingDuringRequest`
        marks the `await fetch` point: it records `isLoading` there, which is
        raised for as long as the request is in flight. */
    method Send(target: bool, response: Response) returns (ghost loadingDuringRequest: bool)
      modifies this
      ensures loadingDuringRequest
      ensures !isLoading
      ensures isSystemOn == AfterRequest(old(isSystemOn), target, response)
    {
      isLoading := true;
      loadingDuringRequest := isLoading;
      if response.Responded? && response.ok {
        isSystemOn := target;
      }
      isLoading := false;
    }

    /** `turnOn`. */
    method TurnOn(response: Response) returns (ghost loadingDuringRequest: bool)
      modifies this
      ensures loadingDuringRequest && !isLoading
      ensures Acknowledged(response) ==> isSystemOn
      ensures !Acknowledged(response) ==> isSystemOn == old(isSystemOn)
    {
      loadingDuringRequest := Send(true, response);
    }

    /** `turnOff`. */
    method TurnOff(response: Response) returns (ghost loadingDuringRequest: bool)
      modifies this
      ensures loadingDuringRequest && !isLoading
      ensures Acknowledged(response) ==> !isSystemOn
      ensures !Acknowledged(response) ==> isSystemOn == old(isSystemOn)
    {
      loadingDuringRequest := Send(false, response);
    }

    /** `toggle`: turns off when on, and on when off. */
    method Toggle(response: Response) returns (ghost loadingDuringRequest: bool)
      modifies this
      ensures loadingDuringRequest && !isLoading
      ensures isSystemOn == AfterRequest(old(isSystemOn), !old(isSystemOn), response)
    {
      if isSystemOn {
        loadingDuringRequest := TurnOff(response);
      } else {
        loadingDuringRequest := TurnOn(response);
      }
    }
  }
}
