/**
 * The single page of the client (src/pages/Index.tsx): it reads the three
 * pieces of state kept by the prediction hook and decides which of four
 * blocks to render: the spinner, the error banner, the input form and the
 * prediction result. The rendering itself is left out; what is modelled is
 * which blocks are on the page for a given state.
 */
module IndexPage {
  import opened Wrappers
  import opened Records
  import opened LeadData

  /** The hook state the page reads. */
  datatype PageState = PageState(loading: bool, result: Option<LeadResponse>, error: Option<string>)

  /** A snapshot of the hook's state. */
  function Page(h: LeadDataHook): PageState
    reads h
  {
    PageState(h.loading, h.result, h.error)
  }

  /** `error` in a JSX condition: null and the empty string are both falsy. */
  predicate ErrorTruthy(e: Option<string>)
  {
    e.Some? && e.value != ""
  }

  /** `{loading && ...}`: the spinner. */
  predicate ShowsSpinner(p: PageState) { p.loading }

  /** `{error && ...}`: the banner, shown whatever else is on the page. */
  predicate ShowsErrorBanner(p: PageState) { ErrorTruthy(p.error) }

  /** `!loading && !result && !error`: the input form. */
  predicate ShowsForm(p: PageState) { !p.loading && p.result.None? && !ErrorTruthy(p.error) }

  /** `!loading && result`: the prediction result. */
  predicate ShowsResult(p: PageState) { !p.loading && p.result.Some? }

  /** The form and the result are never on the page together. */
  lemma FormAndResultExclusive(p: PageState)
    ensures !(ShowsForm(p) && ShowsResult(p))
    ensures !p.loading && !ErrorTruthy(p.error) ==> (ShowsForm(p) <==> !ShowsResult(p))
  {
  }

  /** While a request is in flight, neither the form nor the result is shown. */
  lemma LoadingShowsOnlySpinner(p: PageState)
    requires p.loading
    ensures ShowsSpinner(p) && !ShowsForm(p) && !ShowsResult(p)
  {
  }

  /**
   * One visit to the page: it mounts, the form is submitted, the request
   * settles with `outcome`, and the result is dismissed. Returns the page
   * state after each step.
   */
  method Session(leadData: Record, outcome: FetchOutcome, r1: real, r2: real, r3: real, r4: real)
    returns (idle: PageState, waiting: PageState, settled: PageState, dismissed: PageState)
    requires IsDraw(r1) && IsDraw(r2) && IsDraw(r3) && IsDraw(r4)
    ensures ShowsForm(idle) && !ShowsSpinner(idle) && !ShowsErrorBanner(idle) && !ShowsResult(idle)
    ensures ShowsSpinner(waiting) && !ShowsErrorBanner(waiting) && !ShowsForm(waiting) && !ShowsResult(waiting)
    ensures ShowsResult(settled) && !ShowsSpinner(settled) && !ShowsForm(settled)
    ensures ShowsErrorBanner(settled) <==> Settle(outcome).Failed? && !CarriesEmptyMessage(outcome)
    ensures settled.result.Some? && Populated(settled.result.value)
    ensures Settle(outcome).Labelled? ==>
      settled.result == Some(SuccessResult(Settle(outcome).prediction, leadData, r1, r2)) && settled.error == None
    ensures Settle(outcome).Failed? ==>
      settled.result == Some(FallbackResult(r1, r2, r3, r4)) && settled.error == Some(Settle(outcome).message)
    ensures dismissed == idle
  {
    var hook := new LeadDataHook();
    idle := Page(hook);
    hook.BeginPredict();
    waiting := Page(hook);
    hook.SettlePredict(leadData, outcome, r1, r2, r3, r4);
    settled := Page(hook);
    hook.ClearResult();
    dismissed := Page(hook);
  }
}
