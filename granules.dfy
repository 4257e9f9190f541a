/**
 * The decision code of the granule table's bulk actions: the confirmation messages each
 * action shows for a selection of `d` granules, the base path a collection view redirects
 * under, where the completion dialog's confirm button navigates, which options the
 * reingest dialog gets at each step, the "selection holds published granules" guard and
 * the list of bulk actions it switches.
 */
module Granules {
  import opened Js

  /** Locale strings of the dashboard that the messages and labels use; their values are not part of this model. */
  datatype Locale = Locale(cmr: string, removeFromCmr: string)

  // ---------------------------------------------------------------------------
  // Confirmation messages

  /** The plural ending: added exactly when more than one granule is selected. */
  function PluralS(d: nat): string
  {
    if d > 1 then "s" else ""
  }

  function ConfirmRecover(d: nat): string
  {
    "Recover " + Decimal(d) + " granule(s)?"
  }

  function ConfirmReingest(d: nat): string
  {
    "Reingest " + Decimal(d) + " Granule" + PluralS(d) + "?"
  }

  function ConfirmApply(d: nat): string
  {
    "Run workflow on " + Decimal(d) + " granule" + PluralS(d) + "?"
  }

  function ConfirmRemove(d: nat, locale: Locale): string
  {
    "Remove " + Decimal(d) + " granule" + PluralS(d) + " from " + locale.cmr + "?"
  }

  function ConfirmDelete(d: nat): string
  {
    "Delete " + Decimal(d) + " granule" + PluralS(d) + "?"
  }

  function ConfirmRemoveFromCmr(d: nat): string
  {
    "Selection contains granules that are published to CMR which must be removed before deleting. "
    + "Remove published granules from CMR and delete?"
  }

  /** Reingest, apply, remove and delete use the plural noun exactly when more than one granule is selected. */
  lemma PluralExactlyAboveOne(d: nat, locale: Locale)
    ensures ConfirmReingest(d) == "Reingest " + Decimal(d) + " Granules?" <==> d > 1
    ensures ConfirmReingest(d) == "Reingest " + Decimal(d) + " Granule?" <==> d <= 1
    ensures ConfirmApply(d) == "Run workflow on " + Decimal(d) + " granules?" <==> d > 1
    ensures ConfirmApply(d) == "Run workflow on " + Decimal(d) + " granule?" <==> d <= 1
    ensures ConfirmRemove(d, locale) == "Remove " + Decimal(d) + " granules from " + locale.cmr + "?" <==> d > 1
    ensures ConfirmRemove(d, locale) == "Remove " + Decimal(d) + " granule from " + locale.cmr + "?" <==> d <= 1
    ensures ConfirmDelete(d) == "Delete " + Decimal(d) + " granules?" <==> d > 1
    ensures ConfirmDelete(d) == "Delete " + Decimal(d) + " granule?" <==> d <= 1
  {
  }

  /** One granule gives the singular wording, two the plural. */
  lemma SingularForOnePluralForTwo(locale: Locale)
    ensures ConfirmReingest(1) == "Reingest 1 Granule?" && ConfirmReingest(2) == "Reingest 2 Granules?"
    ensures ConfirmApply(1) == "Run workflow on 1 granule?" && ConfirmApply(2) == "Run workflow on 2 granules?"
    ensures ConfirmRemove(1, locale) == "Remove 1 granule from " + locale.cmr + "?"
    ensures ConfirmRemove(2, locale) == "Remove 2 granules from " + locale.cmr + "?"
    ensures ConfirmDelete(1) == "Delete 1 granule?" && ConfirmDelete(2) == "Delete 2 granules?"
  {
    assert Decimal(1) == "1" && Decimal(2) == "2";
  }

  /** The recover message says `granule(s)` whatever the count; the remove-from-CMR message ignores its argument. */
  lemma CountIndependentWording(a: nat, b: nat)
    ensures ConfirmRecover(a)[|ConfirmRecover(a)| - 12..] == " granule(s)?"
    ensures ConfirmRemoveFromCmr(a) == ConfirmRemoveFromCmr(b)
  {
    var m := ConfirmRecover(a);
    assert m == ("Recover " + Decimal(a)) + " granule(s)?";
  }

  /**
   * A message built as `prefix`, then the count, then text that does not start with a digit
   * determines the count.
   */
  lemma {:induction false} CountReadable(prefix: string, a: nat, b: nat, restA: string, restB: string)
    requires restA != [] && restB != [] && !IsDigit(restA[0]) && !IsDigit(restB[0])
    requires prefix + Decimal(a) + restA == prefix + Decimal(b) + restB
    ensures a == b
  {
    var m := prefix + Decimal(a) + restA;
    var da, db := Decimal(a), Decimal(b);
    var k := |prefix|;
    assert forall i :: k <= i < k + |da| ==> IsDigit(m[i]) by {
      assert forall i :: k <= i < k + |da| ==> m[i] == da[i - k];
    }
    assert forall i :: k <= i < k + |db| ==> IsDigit(m[i]) by {
      assert forall i :: k <= i < k + |db| ==> m[i] == db[i - k];
    }
    assert !IsDigit(m[k + |da|]) && !IsDigit(m[k + |db|]);
    assert |da| == |db|;
    assert da == m[k..k + |da|] == db;
    DecimalInjective(a, b);
  }

  /** Two different counts never give the same recover message. */
  lemma RecoverShowsCount(a: nat, b: nat)
    requires ConfirmRecover(a) == ConfirmRecover(b)
    ensures a == b
  {
    CountReadable("Recover ", a, b, " granule(s)?", " granule(s)?");
  }

  /** Two different counts never give the same reingest message. */
  lemma ReingestShowsCount(a: nat, b: nat)
    requires ConfirmReingest(a) == ConfirmReingest(b)
    ensures a == b
  {
    var ra, rb := " Granule" + PluralS(a) + "?", " Granule" + PluralS(b) + "?";
    assert ConfirmReingest(a) == "Reingest " + Decimal(a) + ra;
    assert ConfirmReingest(b) == "Reingest " + Decimal(b) + rb;
    CountReadable("Reingest ", a, b, ra, rb);
  }

  /** Two different counts never give the same run-workflow message. */
  lemma ApplyShowsCount(a: nat, b: nat)
    requires ConfirmApply(a) == ConfirmApply(b)
    ensures a == b
  {
    var ra, rb := " granule" + PluralS(a) + "?", " granule" + PluralS(b) + "?";
    assert ConfirmApply(a) == "Run workflow on " + Decimal(a) + ra;
    assert ConfirmApply(b) == "Run workflow on " + Decimal(b) + rb;
    CountReadable("Run workflow on ", a, b, ra, rb);
  }

  /** Two different counts never give the same remove message. */
  lemma RemoveShowsCount(a: nat, b: nat, locale: Locale)
    requires ConfirmRemove(a, locale) == ConfirmRemove(b, locale)
    ensures a == b
  {
    var ra := " granule" + PluralS(a) + " from " + locale.cmr + "?";
    var rb := " granule" + PluralS(b) + " from " + locale.cmr + "?";
    assert ConfirmRemove(a, locale) == "Remove " + Decimal(a) + ra;
    assert ConfirmRemove(b, locale) == "Remove " + Decimal(b) + rb;
    CountReadable("Remove ", a, b, ra, rb);
  }

  /** Two different counts never give the same delete message. */
  lemma DeleteShowsCount(a: nat, b: nat)
    requires ConfirmDelete(a) == ConfirmDelete(b)
    ensures a == b
  {
    var ra, rb := " granule" + PluralS(a) + "?", " granule" + PluralS(b) + "?";
    assert ConfirmDelete(a) == "Delete " + Decimal(a) + ra;
    assert ConfirmDelete(b) == "Delete " + Decimal(b) + rb;
    CountReadable("Delete ", a, b, ra, rb);
  }

  // ---------------------------------------------------------------------------
  // Base path of a collection view

  /**
   * `currPath.includes('granules')` decides; then the first `/granules` and everything after it
   * up to a line terminator (what `/granules` followed by a greedy `.*` matches) becomes `/granules`.
   */
  function DetermineCollectionsBase(currPath: string): string
  {
    if Includes(currPath, "granules") then
      match FirstIndex(currPath, "/granules")
      case None => currPath
      case Some(i) => currPath[..i] + "/granules" + currPath[LineEnd(currPath, i + 9)..]
    else
      currPath + "/granules"
  }

  /** An occurrence of `/granules` is an occurrence of `granules` one character later. */
  lemma SlashGranulesHasGranules(p: string, i: nat)
    requires OccursAt(p, "/granules", i)
    ensures OccursAt(p, "granules", i + 1)
  {
    assert p[i + 1..i + 9] == p[i..i + 9][1..];
  }

  /** The path holds `/granules`: keep what precedes its first occurrence and end with `/granules`. */
  lemma BaseCutsAtFirstSlashGranules(p: string, i: nat)
    requires OccursAt(p, "/granules", i)
    requires forall j: nat :: j < i ==> !OccursAt(p, "/granules", j)
    ensures DetermineCollectionsBase(p) == p[..i] + "/granules" + p[LineEnd(p, i + 9)..]
    ensures (forall j :: i <= j < |p| ==> !IsLineTerminator(p[j])) ==> DetermineCollectionsBase(p) == p[..i] + "/granules"
  {
    SlashGranulesHasGranules(p, i);
    assert FirstIndex(p, "/granules") == Some(i);
  }

  /** The path holds no `granules` at all: `/granules` is appended. */
  lemma BaseAppendsWithoutGranules(p: string)
    requires forall j: nat :: !OccursAt(p, "granules", j)
    ensures DetermineCollectionsBase(p) == p + "/granules"
  {
  }

  /** The path holds `granules` but never `/granules`: `includes` and the regular expression disagree, and the path comes back unchanged. */
  lemma BaseKeepsBareGranules(p: string, j: nat)
    requires OccursAt(p, "granules", j)
    requires forall k: nat :: !OccursAt(p, "/granules", k)
    ensures DetermineCollectionsBase(p) == p
  {
  }

  /** No occurrence of `/granules` in `q` can start before an offset `b` where `q` holds a `/granules` while `q[..b]` holds none. */
  lemma NoEarlierSlashGranules(q: string, b: nat)
    requires OccursAt(q, "/granules", b)
    requires forall j: nat :: j + 9 <= b ==> !OccursAt(q, "/granules", j)
    ensures forall j: nat :: j < b ==> !OccursAt(q, "/granules", j)
  {
    assert q[b] == '/' by { assert q[b..b + 9] == "/granules"; }
    assert forall t :: 1 <= t < 9 ==> "/granules"[t] != '/';
    forall j: nat | j < b
      ensures !OccursAt(q, "/granules", j)
    {
      if j + 9 > b {
        assert q[j..j + 9][b - j] == q[b];
      }
    }
  }

  /** Applying the rewrite to its own result changes nothing. */
  lemma {:induction false} BaseIdempotent(p: string)
    ensures DetermineCollectionsBase(DetermineCollectionsBase(p)) == DetermineCollectionsBase(p)
  {
    var q := DetermineCollectionsBase(p);
    if !Includes(p, "granules") {
      assert q == p + "/granules";
      assert OccursAt(q, "/granules", |p|) by { assert q[|p|..|p| + 9] == "/granules"; }
      forall j: nat | j + 9 <= |p|
        ensures !OccursAt(q, "/granules", j)
      {
        if OccursAt(q, "/granules", j) {
          assert q[j..j + 9] == p[j..j + 9];
          SlashGranulesHasGranules(p, j);
          assert false;
        }
      }
      NoEarlierSlashGranules(q, |p|);
      BaseCutsAtFirstSlashGranules(q, |p|);
      assert q[..|p|] == p;
    } else if FirstIndex(p, "/granules").Some? {
      var i := FirstIndex(p, "/granules").value;
      var e := LineEnd(p, i + 9);
      assert q == p[..i] + "/granules" + p[e..];
      assert q[..i] == p[..i];
      assert OccursAt(q, "/granules", i) by { assert q[i..i + 9] == "/granules"; }
      forall j: nat | j + 9 <= i
        ensures !OccursAt(q, "/granules", j)
      {
        assert q[j..j + 9] == p[j..j + 9];
        assert !OccursAt(p, "/granules", j);
      }
      NoEarlierSlashGranules(q, i);
      BaseCutsAtFirstSlashGranules(q, i);
      assert q[i + 9..] == p[e..];
      var e' := LineEnd(q, i + 9);
      if e < |p| {
        assert q[i + 9] == p[e];
        assert e' == i + 9;
      } else {
        assert e' == |q|;
      }
      assert q[..i] + "/granules" + q[e'..] == q;
    }
  }

  /** A pattern whose first character is absent from `s` does not occur in `s`. */
  lemma AbsentFirstChar(s: string, pat: string)
    requires pat != [] && pat[0] !in s
    ensures forall j: nat :: !OccursAt(s, pat, j)
  {
    forall j: nat
      ensures !OccursAt(s, pat, j)
    {
      if j < |s| {
        assert s[j] in s;
      }
    }
  }

  const GranulePage := "/granules/granule/abc"
  const CollectionsPage := "/collections"

  /** A granule detail page rewrites to the granule list. */
  lemma GranulePageExample()
    ensures DetermineCollectionsBase(GranulePage) == "/granules"
  {
    var p := GranulePage;
    assert OccursAt(p, "/granules", 0);
    AbsentFirstChar(p, "\n");
    AbsentFirstChar(p, "\r");
    AbsentFirstChar(p, "\U{2028}");
    AbsentFirstChar(p, "\U{2029}");
    assert forall j :: 0 <= j < |p| ==> !IsLineTerminator(p[j]) by {
      forall j | 0 <= j < |p| ensures !IsLineTerminator(p[j]) {
        assert !OccursAt(p, "\n", j) && !OccursAt(p, "\r", j);
        assert !OccursAt(p, "\U{2028}", j) && !OccursAt(p, "\U{2029}", j);
        assert p[j..j + 1] == [p[j]];
      }
    }
    BaseCutsAtFirstSlashGranules(p, 0);
  }

  /** The collections overview gets `/granules` appended. */
  lemma CollectionsPageExample()
    ensures DetermineCollectionsBase(CollectionsPage) == "/collections/granules"
  {
    AbsentFirstChar(CollectionsPage, "granules");
    BaseAppendsWithoutGranules(CollectionsPage);
  }

  /** A path that says `granules` without the slash is left as it is. */
  lemma BareGranulesExample()
    ensures DetermineCollectionsBase("granules") == "granules"
    ensures DetermineCollectionsBase("mygranules/x") == "mygranules/x"
  {
    assert OccursAt("granules", "granules", 0);
    AbsentFirstChar("granules", "/granules");
    BaseKeepsBareGranules("granules", 0);
    assert OccursAt("mygranules/x", "granules", 2);
    assert forall k: nat :: !OccursAt("mygranules/x", "/granules", k) by {
      forall k: nat
        ensures !OccursAt("mygranules/x", "/granules", k)
      {
        if k + 9 <= 12 {
          assert "mygranules/x"[k] != '/';
        }
      }
    }
    BaseKeepsBareGranules("mygranules/x", 2);
  }

  // ---------------------------------------------------------------------------
  // Navigation after a bulk action

  /** What the confirm button of the completion dialog does: nothing, or push a location and close the dialog. */
  datatype OnConfirm = Noop | RedirectAndClose(redirect: string, closeModalIsFunction: bool)

  /** The effects of running an `OnConfirm`, in order. */
  datatype Effect = HistoryPush(path: string) | CloseModal

  /** Runs the confirm handler: the push comes first; `closeModal` is called only when it is a function. */
  function RunOnConfirm(o: OnConfirm): (effects: seq<Effect>)
    ensures o.Noop? ==> effects == []
    ensures o.RedirectAndClose? ==>
      |effects| == (if o.closeModalIsFunction then 2 else 1) && effects[0] == HistoryPush(o.redirect)
    ensures o.RedirectAndClose? ==> (CloseModal in effects <==> o.closeModalIsFunction)
  {
    match o
    case Noop => []
    case RedirectAndClose(redirect, closeModalIsFunction) =>
      [HistoryPush(redirect)] + (if closeModalIsFunction then [CloseModal] else [])
  }

  /**
   * A helper of `SetOnConfirm`: `selected[0]` of an empty selection is `undefined`, which a
   * template literal renders as the text `undefined`.
   */
  function FirstSelected(selected: seq<string>): string
  {
    if |selected| == 0 then "undefined" else selected[0]
  }

  function SetOnConfirm(pathname: string, errorIsTruthy: bool, selected: seq<string>, closeModalIsFunction: bool): (r: OnConfirm)
    ensures r.Noop? <==> errorIsTruthy
    ensures !errorIsTruthy && |selected| > 1 ==> r.redirect == DetermineCollectionsBase(pathname) + "/processing"
    ensures !errorIsTruthy && |selected| <= 1 ==> r.redirect == "/granules/granule/" + FirstSelected(selected)
    ensures r.RedirectAndClose? ==> r.closeModalIsFunction == closeModalIsFunction
  {
    var baseRedirect := DetermineCollectionsBase(pathname);
    if errorIsTruthy then Noop
    else if |selected| > 1 then RedirectAndClose(baseRedirect + "/processing", closeModalIsFunction)
    else RedirectAndClose("/granules/granule/" + FirstSelected(selected), closeModalIsFunction)
  }

  // ---------------------------------------------------------------------------
  // Options of the reingest dialog at each step

  /** The dialog's body: the confirmation content or the completion content (its results and errors are opaque). */
  datatype ModalChildren<R, E> =
    | BatchReingestConfirmContent(selected: seq<string>)
    | BatchReingestCompleteContent(results: R, errorMessage: Option<string>, errors: E)

  /** The options object; None is a field the code never assigned. */
  datatype ModalOptions<R, E> = ModalOptions(
    size: string,
    children: Option<ModalChildren<R, E>>,
    hasConfirmButton: Option<bool>,
    cancelButtonText: Option<string>,
    confirmButtonText: Option<string>,
    cancelButtonClass: Option<string>,
    confirmButtonClass: Option<string>,
    onConfirm: Option<OnConfirm>)

  /** The arguments of the dialog hook; `pathname` is `history.location.pathname`. */
  datatype JourneyArgs<R, E> = JourneyArgs(
    selected: seq<string>,
    pathname: string,
    isOnModalConfirm: bool,
    isOnModalComplete: bool,
    errorMessage: Option<string>,
    errors: E,
    results: R,
    closeModalIsFunction: bool)

  function GranuleModalJourney<R, E>(args: JourneyArgs<R, E>): (o: ModalOptions<R, E>)
    ensures o.size == "lg"
    ensures !args.isOnModalConfirm && !args.isOnModalComplete ==>
      o == ModalOptions("lg", Some(BatchReingestConfirmContent(args.selected)), None, None, None, None, None, None)
    ensures args.isOnModalConfirm && !args.isOnModalComplete ==>
      o == ModalOptions("lg", None, None, None, None, None, None, None)
    ensures args.isOnModalComplete ==>
      && o.children == Some(BatchReingestCompleteContent(args.results, args.errorMessage, args.errors))
      && o.hasConfirmButton == Some(!Truthy(args.errorMessage))
      && o.cancelButtonText == Some("Close")
    ensures args.isOnModalComplete && !Truthy(args.errorMessage) ==>
      && o.confirmButtonText == Some(if |args.selected| > 1 then "View Running" else "View Granule")
      && o.cancelButtonClass == Some("button--green")
      && o.confirmButtonClass == Some("button__goto")
      && o.onConfirm == Some(SetOnConfirm(args.pathname, false, args.selected, args.closeModalIsFunction))
    ensures args.isOnModalComplete && Truthy(args.errorMessage) ==>
      o.confirmButtonText.None? && o.cancelButtonClass.None? && o.confirmButtonClass.None? && o.onConfirm.None?
  {
    var initialEntry := !args.isOnModalConfirm && !args.isOnModalComplete;
    var o0 := ModalOptions("lg", None, None, None, None, None, None, None);
    var o1 := if initialEntry then o0.(children := Some(BatchReingestConfirmContent(args.selected))) else o0;
    if args.isOnModalComplete then
      var o2 := o1.(
        children := Some(BatchReingestCompleteContent(args.results, args.errorMessage, args.errors)),
        size := "lg",
        hasConfirmButton := Some(!Truthy(args.errorMessage)),
        cancelButtonText := Some("Close"));
      if !Truthy(args.errorMessage) then
        o2.(
          confirmButtonText := Some(if |args.selected| > 1 then "View Running" else "View Granule"),
          cancelButtonClass := Some("button--green"),
          confirmButtonClass := Some("button__goto"),
          // the hook passes `errorMessage`, not `error`, so the handler always sees no error
          onConfirm := Some(SetOnConfirm(args.pathname, false, args.selected, args.closeModalIsFunction)))
      else o2
    else o1
  }

  /** The confirm button's label names where it goes: "View Granule" to that granule's page, "View Running" to the processing overview. */
  lemma {:induction false} ConfirmLabelMatchesDestination<R, E>(args: JourneyArgs<R, E>)
    requires args.isOnModalComplete && !Truthy(args.errorMessage)
    ensures var o := GranuleModalJourney(args);
      && o.onConfirm.Some? && o.onConfirm.value.RedirectAndClose?
      && (o.confirmButtonText == Some("View Granule") ==>
            RunOnConfirm(o.onConfirm.value)[0] == HistoryPush("/granules/granule/" + FirstSelected(args.selected)))
      && (o.confirmButtonText == Some("View Running") ==>
            RunOnConfirm(o.onConfirm.value)[0] == HistoryPush(DetermineCollectionsBase(args.pathname) + "/processing"))
  {
  }

  // ---------------------------------------------------------------------------
  // The published-granules guard and the bulk action list

  /** A selected table row; `published` is None for any value that is not a boolean. */
  datatype GranuleRow = GranuleRow(granuleId: string, published: Option<bool>)

  /** The selection argument, which the guard first checks to be an array. */
  datatype Selection = NotAnArray | ArrayOf(rows: seq<GranuleRow>)

  /** `rows.filter((g) => g.published === true)` */
  function PublishedRows(rows: seq<GranuleRow>): (r: seq<GranuleRow>)
    ensures |r| <= |rows|
    ensures forall g :: g in r <==> g in rows && g.published == Some(true)
    ensures forall g :: multiset(r)[g] == (if g.published == Some(true) then multiset(rows)[g] else 0)
  {
    if rows == [] then []
    else
      assert rows == [rows[0]] + rows[1..];
      if rows[0].published == Some(true) then [rows[0]] + PublishedRows(rows[1..])
      else PublishedRows(rows[1..])
  }

  function ContainsPublishedGranules(selectedGranules: Selection): bool
  {
    var publishedGranules :=
      if selectedGranules.ArrayOf? && |selectedGranules.rows| > 0 then PublishedRows(selectedGranules.rows) else [];
    !(|publishedGranules| < 1)
  }

  /** The guard holds exactly for a non-empty array with a row whose `published` is `true`. */
  lemma ContainsPublishedExactly(selectedGranules: Selection)
    ensures ContainsPublishedGranules(selectedGranules) <==>
      && selectedGranules.ArrayOf? && |selectedGranules.rows| > 0
      && exists i :: 0 <= i < |selectedGranules.rows| && selectedGranules.rows[i].published == Some(true)
  {
    if selectedGranules.ArrayOf? && |selectedGranules.rows| > 0 {
      var rows := selectedGranules.rows;
      var r := PublishedRows(rows);
      if |r| > 0 {
        assert r[0] in r;
        var i :| 0 <= i < |rows| && rows[i] == r[0];
      }
      if exists i :: 0 <= i < |rows| && rows[i].published == Some(true) {
        var i :| 0 <= i < |rows| && rows[i].published == Some(true);
        assert rows[i] in rows;
        assert rows[i] in r;
      }
    }
  }

  /** The action creators and slices the entries name; those of the caller's `config` are not part of this model. */
  datatype Handler = ReingestGranule | RemoveGranule | DeleteGranule | RemoveAndDeleteGranule | ConfigExecuteAction | ConfigRecoverAction
  datatype StateSlice = Reingested | Executed | Removed | Deleted
  datatype ClearError = ReingestGranuleClearError | ApplyWorkflowToGranuleClearError | RemoveGranuleClearError | DeleteGranuleClearError
  datatype Confirm = ConfirmRecoverMsg | ConfirmReingestMsg | ConfirmApplyMsg | ConfirmRemoveMsg | ConfirmDeleteMsg | ConfirmRemoveFromCmrMsg
  datatype Widget = GranuleInventoryButton | BulkGranuleButton

  /** A helper of `BulkActions`' lemmas: the message an entry's `confirm` generator produces for `d` selected granules. */
  function Message(c: Confirm, d: nat, locale: Locale): string
  {
    match c
    case ConfirmRecoverMsg => ConfirmRecover(d)
    case ConfirmReingestMsg => ConfirmReingest(d)
    case ConfirmApplyMsg => ConfirmApply(d)
    case ConfirmRemoveMsg => ConfirmRemove(d, locale)
    case ConfirmDeleteMsg => ConfirmDelete(d)
    case ConfirmRemoveFromCmrMsg => ConfirmRemoveFromCmr(d)
  }

  /** An entry of the bulk action list: a declared action, or a ready-made component. */
  datatype BulkAction =
    | ActionEntry(
        text: string,
        action: Handler,
        state: StateSlice,
        clearError: ClearError,
        confirm: Confirm,
        hasConfirmOptions: bool,
        className: Option<string>,
        hasModalJourney: bool)
    | ComponentEntry(component: Widget)

  function RecoverAction(): (a: BulkAction)
    ensures a.ActionEntry? && a.text == "Recover Granule" && a.confirm == ConfirmRecoverMsg
    ensures a.action == ConfigRecoverAction && a.state == Executed && a.className.None?
    ensures a.clearError == ApplyWorkflowToGranuleClearError && !a.hasConfirmOptions && !a.hasModalJourney
  {
    ActionEntry("Recover Granule", ConfigRecoverAction, Executed, ApplyWorkflowToGranuleClearError,
                ConfirmRecoverMsg, false, None, false)
  }

  function ReingestAction(): (a: BulkAction)
    ensures a.ActionEntry? && a.text == "Reingest" && a.action == ReingestGranule && a.confirm == ConfirmReingestMsg
    ensures a.state == Reingested && a.className == Some("button--reingest") && a.hasModalJourney
    ensures a.clearError == ReingestGranuleClearError && !a.hasConfirmOptions
  {
    ActionEntry("Reingest", ReingestGranule, Reingested, ReingestGranuleClearError,
                ConfirmReingestMsg, false, Some("button--reingest"), true)
  }

  /** A helper of `BulkActions`: the Delete entry as it is when the guard does not hold. */
  function PlainDeleteAction(): BulkAction
  {
    ActionEntry("Delete", DeleteGranule, Deleted, DeleteGranuleClearError, ConfirmDeleteMsg, false, Some("button--delete"), false)
  }

  function BulkActions(locale: Locale, selectedGranules: Selection): (r: seq<BulkAction>)
    ensures |r| == 6 && r[0] == ReingestAction()
    ensures r[1] == ActionEntry("Execute", ConfigExecuteAction, Executed, ApplyWorkflowToGranuleClearError,
                                ConfirmApplyMsg, true, Some("button--execute"), false)
    ensures r[2] == ComponentEntry(GranuleInventoryButton) && r[4] == ComponentEntry(BulkGranuleButton)
    ensures r[3] == ActionEntry(locale.removeFromCmr, RemoveGranule, Removed, RemoveGranuleClearError,
                                ConfirmRemoveMsg, false, Some("button--remove"), false)
    ensures ContainsPublishedGranules(selectedGranules) ==>
      r[5] == ActionEntry("Delete", RemoveAndDeleteGranule, Deleted, DeleteGranuleClearError, ConfirmRemoveFromCmrMsg,
                          false, Some("button--delete"), false)
    ensures !ContainsPublishedGranules(selectedGranules) ==> r[5] == PlainDeleteAction()
  {
    var published := ContainsPublishedGranules(selectedGranules);
    [ ReingestAction(),
      ActionEntry("Execute", ConfigExecuteAction, Executed, ApplyWorkflowToGranuleClearError,
                  ConfirmApplyMsg, true, Some("button--execute"), false),
      ComponentEntry(GranuleInventoryButton),
      ActionEntry(locale.removeFromCmr, RemoveGranule, Removed, RemoveGranuleClearError,
                  ConfirmRemoveMsg, false, Some("button--remove"), false),
      ComponentEntry(BulkGranuleButton),
      ActionEntry("Delete", if published then RemoveAndDeleteGranule else DeleteGranule, Deleted,
                  DeleteGranuleClearError, if published then ConfirmRemoveFromCmrMsg else ConfirmDeleteMsg,
                  false, Some("button--delete"), false) ]
  }

  /**
   * Only the Delete entry depends on the selection, and only in its action and message: the
   * other five entries and their order are the same for every selection.
   */
  lemma OnlyDeleteDependsOnSelection(locale: Locale, s1: Selection, s2: Selection)
    ensures BulkActions(locale, s1)[..5] == BulkActions(locale, s2)[..5]
    ensures BulkActions(locale, s1)[5].(action := DeleteGranule, confirm := ConfirmDeleteMsg)
         == BulkActions(locale, s2)[5].(action := DeleteGranule, confirm := ConfirmDeleteMsg)
  {
  }

  /** With a published granule in the selection, Delete first removes from CMR and says so. */
  lemma DeleteMessageForSelection(locale: Locale, selectedGranules: Selection, d: nat)
    ensures var del := BulkActions(locale, selectedGranules)[5];
      Message(del.confirm, d, locale) ==
        if ContainsPublishedGranules(selectedGranules) then ConfirmRemoveFromCmr(0) else ConfirmDelete(d)
  {
    var del := BulkActions(locale, selectedGranules)[5];
    if ContainsPublishedGranules(selectedGranules) {
      assert del.confirm == ConfirmRemoveFromCmrMsg;
    } else {
      assert del.confirm == ConfirmDeleteMsg;
    }
  }
}
