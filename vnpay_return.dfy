/** The page the VNPay gateway sends the buyer back to: the query parameters collected
    into an object, the verification call made with them, and the title and link chosen
    from the answer. The query string's decoding is not part of this model: the page is
    given the list of decoded parameters, in order. */
module VnpayReturn {
  import opened Wrappers

  const MissingParams := "Thiếu tham số trả về từ VNPay."
  const CannotVerify := "Không thể xác minh giao dịch."
  const TitleLoading := "Đang xác minh giao dịch..."
  const TitleError := "Xác minh giao dịch thất bại"
  const TitleSuccess := "Thanh toán thành công"
  const TitleNotPaid := "Thanh toán chưa thành công"
  const OrderLink := "/order"
  const CartLink := "/cart"

  datatype Param = Param(key: string, value: string)

  /** The object `buildParams` fills: each parameter in turn written under its key. */
  function ParamsOf(ps: seq<Param>): map<string, string>
    decreases |ps|
  {
    if ps == [] then map[]
    else ParamsOf(ps[..|ps| - 1])[ps[|ps| - 1].key := ps[|ps| - 1].value]
  }

  /** `buildParams`: the `forEach` over the parameters. */
  method BuildParams(ps: seq<Param>) returns (params: map<string, string>)
    ensures params == ParamsOf(ps)
  {
    params := map[];
    var i := 0;
    while i < |ps|
      invariant 0 <= i <= |ps|
      invariant params == ParamsOf(ps[..i])
    {
      assert ps[..i + 1][..i] == ps[..i];
      params := params[ps[i].key := ps[i].value];
      i := i + 1;
    }
    assert ps[..|ps|] == ps;
  }

  /** What the verification endpoint answers. */
  datatype VerifyData = VerifyData(
    isVerified: bool, isSuccess: bool, message: Option<string>, orderId: Option<string>)

  /** The answer, or the request's failure with the server's `message`, if any. */
  datatype Answer = Verified(data: VerifyData) | Failed(serverMessage: Option<string>)

  datatype State = State(loading: bool, error: Option<string>, data: Option<VerifyData>)

  const Initial := State(true, None, None)

  /** The effect on mount: without parameters the page stops with the missing-parameter
      error and makes no call; otherwise it calls the verification endpoint with the
      collected parameters and keeps loading. */
  function Mount(s: State, ps: seq<Param>): (State, Option<map<string, string>>) {
    if ps == [] then (State(false, Some(MissingParams), None), None)
    else (s, Some(ParamsOf(ps)))
  }

  /** The state once the call is answered. */
  function Resolve(a: Answer): State {
    match a
    case Verified(d) => State(false, None, Some(d))
    case Failed(m) => State(false, Some(if m.Some? && m.value != "" then m.value else CannotVerify), None)
  }

  /** `state.data?.isVerified && state.data?.isSuccess`. */
  predicate IsSuccess(s: State) {
    s.data.Some? && s.data.value.isVerified && s.data.value.isSuccess
  }

  /** `error` is truthy: set, and not the empty string. */
  predicate HasError(s: State) {
    s.error.Some? && s.error.value != ""
  }

  function Title(s: State): string {
    if s.loading then TitleLoading
    else if HasError(s) then TitleError
    else if IsSuccess(s) then TitleSuccess
    else TitleNotPaid
  }

  /** The first button's target. */
  function PrimaryLink(s: State): string {
    if IsSuccess(s) then OrderLink else CartLink
  }

  class VnpayReturnPage {
    var state: State

    constructor ()
      ensures state == Initial
    {
      state := Initial;
    }

    /** Runs the mount effect; `call` holds the parameters sent, if a call is made. */
    method Effect(ps: seq<Param>) returns (call: Option<map<string, string>>)
      modifies this
      ensures (state, call) == Mount(old(state), ps)
    {
      if |ps| == 0 {
        state := State(false, Some(MissingParams), None);
        return None;
      }
      var params := BuildParams(ps);
      call := Some(params);
    }

    method Answered(a: Answer)
      modifies this
      ensures state == Resolve(a)
    {
      match a
      case Verified(d) =>
        state := State(false, None, Some(d));
      case Failed(m) =>
        var message := if m.Some? && m.value != "" then m.value else CannotVerify;
        state := State(false, Some(message), None);
    }
  }

  // ------------------------------------------------------------ lemmas

  /** The keys of the object are exactly the keys of the parameters. */
  lemma {:induction false} ParamsKeys(ps: seq<Param>, k: string)
    ensures k in ParamsOf(ps) <==> exists i | 0 <= i < |ps| :: ps[i].key == k
    decreases |ps|
  {
    if ps != [] {
      var init := ps[..|ps| - 1];
      ParamsKeys(init, k);
      if exists i | 0 <= i < |init| :: init[i].key == k {
        var i :| 0 <= i < |init| && init[i].key == k;
        assert ps[i].key == k;
      }
      if exists i | 0 <= i < |ps| :: ps[i].key == k {
        var i :| 0 <= i < |ps| && ps[i].key == k;
        if i < |ps| - 1 {
          assert init[i].key == k;
        }
      }
    }
  }

  /** For a key given more than once, the last value wins. */
  lemma {:induction false} LastValueWins(ps: seq<Param>, j: int)
    requires 0 <= j < |ps|
    requires forall i | j < i < |ps| :: ps[i].key != ps[j].key
    ensures ps[j].key in ParamsOf(ps) && ParamsOf(ps)[ps[j].key] == ps[j].value
    decreases |ps|
  {
    if j < |ps| - 1 {
      var init := ps[..|ps| - 1];
      assert init[j] == ps[j];
      LastValueWins(init, j);
    }
  }

  /** Without parameters, the page stops loading with the missing-parameter error and
      makes no call; with some, it calls with them and is still loading. */
  lemma MountLaws(ps: seq<Param>)
    ensures ps == [] ==> Mount(Initial, ps) == (State(false, Some(MissingParams), None), None)
    ensures ps != [] ==> Mount(Initial, ps).1 == Some(ParamsOf(ps)) && Mount(Initial, ps).0.loading
    ensures Title(Mount(Initial, []).0) == TitleError && PrimaryLink(Mount(Initial, []).0) == CartLink
  {
  }

  /** A failed call always shows an error, the server's or the fallback. */
  lemma FailureShowsError(m: Option<string>)
    ensures var s := Resolve(Failed(m));
      && s.error.Some? && s.error.value != "" && !s.loading && !IsSuccess(s)
      && (m.Some? && m.value != "" ==> s.error == m)
      && (m.None? || m == Some("") ==> s.error == Some(CannotVerify))
  {
  }

  /** The payment succeeded exactly when the answer says it is both verified and
      successful. */
  lemma SuccessIff(d: VerifyData)
    ensures IsSuccess(Resolve(Verified(d))) <==> d.isVerified && d.isSuccess
  {
  }

  /** The title goes by loading, then error, then success, then failure; the link goes
      to the orders on success and to the cart otherwise. */
  lemma TitleAndLink(s: State)
    ensures s.loading ==> Title(s) == TitleLoading
    ensures !s.loading && HasError(s) ==> Title(s) == TitleError
    ensures !s.loading && !HasError(s) ==> (Title(s) == TitleSuccess <==> IsSuccess(s))
    ensures PrimaryLink(s) == OrderLink <==> IsSuccess(s)
  {
  }

  /** Once answered, the success title and the orders link go together. */
  lemma AnsweredTitleMatchesLink(a: Answer)
    ensures Title(Resolve(a)) == TitleSuccess <==> PrimaryLink(Resolve(a)) == OrderLink
  {
  }
}
