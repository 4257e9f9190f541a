/**
 * The execution status page: two dialog flags that the "Show Input" and "Show Output"
 * buttons open and the dialogs' close buttons clear, the requests the page issues when it
 * is mounted, where its "Logs" link points, and the guard that renders nothing until the
 * execution has been fetched.
 */
module ExecutionStatusView {
  import opened Js

  /** The component state: whether the input dialog and the output dialog are shown. */
  datatype ModalFlags = ModalFlags(showInputModal: bool, showOutputModal: bool)

  const InitialFlags := ModalFlags(false, false)

  /** `openModal(type)`: 'input' and 'output' set their own flag; any other type does nothing. */
  function Open(f: ModalFlags, modalType: string): (r: ModalFlags)
    ensures r.showInputModal == (modalType == "input" || f.showInputModal)
    ensures r.showOutputModal == (modalType == "output" || f.showOutputModal)
  {
    match modalType
    case "input" => f.(showInputModal := true)
    case "output" => f.(showOutputModal := true)
    case _ => f
  }

  /** `closeModal(type)`: 'input' and 'output' clear their own flag; any other type does nothing. */
  function Close(f: ModalFlags, modalType: string): (r: ModalFlags)
    ensures r.showInputModal == (modalType != "input" && f.showInputModal)
    ensures r.showOutputModal == (modalType != "output" && f.showOutputModal)
  {
    match modalType
    case "input" => f.(showInputModal := false)
    case "output" => f.(showOutputModal := false)
    case _ => f
  }

  /** A type other than 'input' and 'output' changes neither flag, whether opened or closed. */
  lemma UnknownTypeChangesNothing(f: ModalFlags, modalType: string)
    requires modalType != "input" && modalType != "output"
    ensures Open(f, modalType) == f && Close(f, modalType) == f
  {
  }

  /** Opening twice is opening once, closing twice is closing once. */
  lemma OpenCloseIdempotent(f: ModalFlags, modalType: string)
    ensures Open(Open(f, modalType), modalType) == Open(f, modalType)
    ensures Close(Close(f, modalType), modalType) == Close(f, modalType)
  {
  }

  /** Closing a dialog right after opening it clears that dialog's flag and leaves the other dialog's flag as it was. */
  lemma CloseAfterOpen(f: ModalFlags, modalType: string)
    ensures modalType == "input" ==> Close(Open(f, modalType), modalType) == f.(showInputModal := false)
    ensures modalType == "output" ==> Close(Open(f, modalType), modalType) == f.(showOutputModal := false)
    ensures Close(Open(f, modalType), modalType) == Close(f, modalType)
  {
  }

  /** The two dialogs are independent: operations on different types commute. */
  lemma DifferentTypesCommute(f: ModalFlags, t1: string, t2: string)
    requires t1 != t2
    ensures Open(Open(f, t1), t2) == Open(Open(f, t2), t1)
    ensures Close(Close(f, t1), t2) == Close(Close(f, t2), t1)
    ensures Open(Close(f, t1), t2) == Close(Open(f, t2), t1)
  {
  }

  // ---------------------------------------------------------------------------
  // The Logs link

  /** Where the Logs cell links: the Kibana page in a new tab, or the dashboard's own logs route. */
  datatype LinkTarget =
    | KibanaLink(href: string, text: string)
    | RouteLink(pathname: string, title: string, text: string)

  /** `/executions/execution/<arn>/logs` */
  function LogsPath(executionArn: string): string
  {
    "/executions/execution/" + executionArn + "/logs"
  }

  /**
   * `kibanaLink` is what the Kibana helper returned for this execution (None when it returned
   * nothing); it is used when it is a non-empty string.
   */
  function LogsTarget(kibanaLink: Option<string>, executionArn: string): (r: LinkTarget)
    ensures r.KibanaLink? <==> kibanaLink.Some? && |kibanaLink.value| > 0
    ensures r.KibanaLink? ==> r.href == kibanaLink.value && r.text == "View Logs in Kibana"
    ensures r.RouteLink? ==>
      r.pathname == LogsPath(executionArn) && r.title == executionArn + "/logs" && r.text == "View Execution Logs"
  {
    if kibanaLink.Some? && |kibanaLink.value| > 0 then KibanaLink(kibanaLink.value, "View Logs in Kibana")
    else RouteLink(LogsPath(executionArn), executionArn + "/logs", "View Execution Logs")
  }

  /**
   * The router's `/executions/execution/:executionArn/logs` pattern in the canonical form the
   * Logs link produces: exact and case-sensitive, one segment between prefix and suffix. The
   * router's looser matching (a trailing slash, letter case) is not part of this model.
   */
  function MatchLogsRoute(pathname: string): (arn: Option<string>)
    ensures arn.Some? ==> LogsPath(arn.value) == pathname && arn.value != "" && '/' !in arn.value
  {
    var prefix, suffix := "/executions/execution/", "/logs";
    if |pathname| > |prefix| + |suffix| && pathname[..|prefix|] == prefix && pathname[|pathname| - |suffix|..] == suffix then
      var segment := pathname[|prefix|..|pathname| - |suffix|];
      if '/' in segment then None
      else
        assert pathname == prefix + segment + suffix;
        Some(segment)
    else None
  }

  /** The internal logs link is one the router sends to the logs page of the same execution. */
  lemma {:induction false} LogsLinkReachesLogsRoute(executionArn: string)
    requires executionArn != "" && '/' !in executionArn
    ensures MatchLogsRoute(LogsTarget(None, executionArn).pathname) == Some(executionArn)
  {
    var p := LogsPath(executionArn);
    var n := |"/executions/execution/"|;
    assert p[..n] == "/executions/execution/";
    assert p[|p| - 5..] == "/logs";
    assert p[n..|p| - 5] == executionArn;
  }

  // ---------------------------------------------------------------------------
  // The component

  /** The fetched execution record, as far as the page's decisions look at it. */
  datatype Execution = Execution(name: string, executionArn: string)

  /**
   * What the page shows once the execution is there: its heading, the Logs link and the two
   * dialog flags (a dialog is on screen only when its flag is set and the execution has that field).
   */
  datatype StatusPage = StatusPage(heading: string, logs: LinkTarget, showInputModal: bool, showOutputModal: bool)

  /** The requests the page dispatches. */
  datatype Request = GetExecutionStatus(executionArn: string) | GetCumulusInstanceMetadata

  class ExecutionStatus {
    var showInputModal: bool
    var showOutputModal: bool
    /** The requests dispatched so far, oldest first. */
    var dispatched: seq<Request>

    function Flags(): ModalFlags
      reads this
    {
      ModalFlags(showInputModal, showOutputModal)
    }

    constructor ()
      ensures Flags() == InitialFlags && !showInputModal && !showOutputModal
      ensures dispatched == []
    {
      showInputModal, showOutputModal := false, false;
      dispatched := [];
    }

    /** Fetches the execution named by the route, then the instance metadata the Kibana link needs. */
    method ComponentDidMount(executionArn: string)
      modifies this`dispatched
      ensures dispatched == old(dispatched) + [GetExecutionStatus(executionArn), GetCumulusInstanceMetadata]
    {
      dispatched := dispatched + [GetExecutionStatus(executionArn)];
      dispatched := dispatched + [GetCumulusInstanceMetadata];
    }

    method OpenModal(modalType: string)
      modifies this`showInputModal, this`showOutputModal
      ensures Flags() == Open(old(Flags()), modalType)
    {
      if modalType == "input" {
        showInputModal := true;
      } else if modalType == "output" {
        showOutputModal := true;
      }
    }

    method CloseModal(modalType: string)
      modifies this`showInputModal, this`showOutputModal
      ensures Flags() == Close(old(Flags()), modalType)
    {
      if modalType == "input" {
        showInputModal := false;
      } else if modalType == "output" {
        showOutputModal := false;
      }
    }

    /** Nothing is rendered until the execution is in the store. */
    function Render(execution: Option<Execution>, kibanaLink: Option<string>): (page: Option<StatusPage>)
      reads this
      ensures page.None? <==> execution.None?
      ensures page.Some? ==>
        && page.value.heading == "Execution: " + execution.value.name
        && page.value.logs == LogsTarget(kibanaLink, execution.value.executionArn)
        && page.value.showInputModal == showInputModal && page.value.showOutputModal == showOutputModal
    {
      match execution
      case None => None
      case Some(e) =>
        Some(StatusPage("Execution: " + e.name, LogsTarget(kibanaLink, e.executionArn), showInputModal, showOutputModal))
    }
  }

  /** A fresh page shows neither dialog; "Show Input" then its close button leaves it that way, and the output dialog is never touched. */
  method OpenAndCloseInput() returns (page: ExecutionStatus)
    ensures fresh(page) && !page.showInputModal && !page.showOutputModal
  {
    page := new ExecutionStatus();
    page.OpenModal("input");
    assert page.showInputModal && !page.showOutputModal;
    page.CloseModal("input");
  }
}
