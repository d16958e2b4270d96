/** The dustbin list view: the institution filter of its query, the
    "latest fill" value of each dustbin, the three-way fill classification
    shown as text colour, badge and bar colour, and the set of dustbins whose
    API key is shown. */
module DustbinList {
  import opened Common
  import opened Tables

  /** A listed dustbin with the fill percentage it displays. */
  datatype DustbinView = DustbinView(row: Dustbin, latestFillPercentage: real)

  datatype Badge = Badge(className: string, text: string)

  function FillLevelColor(percentage: real): (r: string)
    ensures r == "text-success" <==> percentage < 50.0
    ensures r == "text-warning" <==> 50.0 <= percentage < 75.0
    ensures r == "text-danger" <==> percentage >= 75.0
  {
    if percentage < 50.0 then "text-success"
    else if percentage < 75.0 then "text-warning"
    else "text-danger"
  }

  function FillLevelBadge(percentage: real): (r: Badge)
    ensures r == Badge("bg-success", "Low") <==> percentage < 50.0
    ensures r == Badge("bg-warning", "Medium") <==> 50.0 <= percentage < 75.0
    ensures r == Badge("bg-danger", "High") <==> percentage >= 75.0
  {
    if percentage < 50.0 then Badge("bg-success", "Low")
    else if percentage < 75.0 then Badge("bg-warning", "Medium")
    else Badge("bg-danger", "High")
  }

  /** The severity a text colour stands for: 0 low, 1 medium, 2 high. */
  function Severity(color: string): nat {
    if color == "text-success" then 0 else if color == "text-warning" then 1 else 2
  }

  /** The badge, the bar and the text colour always name the same level. */
  lemma ClassifiersAgree(percentage: real)
    ensures FillLevelColor(percentage) == "text-success" <==> FillLevelBadge(percentage).text == "Low"
    ensures FillLevelColor(percentage) == "text-warning" <==> FillLevelBadge(percentage).text == "Medium"
    ensures FillLevelColor(percentage) == "text-danger" <==> FillLevelBadge(percentage).text == "High"
  {
  }

  /** The fill bar's class, written inline in the card, is always the badge's class. */
  lemma FillBarMatchesBadge(percentage: real)
    ensures (if percentage < 50.0 then "bg-success" else if percentage < 75.0 then "bg-warning" else "bg-danger")
            == FillLevelBadge(percentage).className
  {
  }

  /** A fuller dustbin is never shown at a lower severity. */
  lemma SeverityMonotone(p: real, q: real)
    requires p <= q
    ensures Severity(FillLevelColor(p)) <= Severity(FillLevelColor(q))
  {
  }

  /** `latestReading?.fill_percentage || 0`: the first embedded reading's value, or 0 when there is none. */
  function LatestFill(readings: seq<real>): (r: real)
    ensures readings == [] ==> r == 0.0
    ensures readings != [] ==> r == readings[0]
  {
    if readings == [] || readings[0] == 0.0 then 0.0 else readings[0]
  }

  function WithLatestFill(data: seq<DustbinWithReadings>): (r: seq<DustbinView>)
    ensures |r| == |data|
    ensures forall i :: 0 <= i < |data| ==> r[i] == DustbinView(data[i].row, LatestFill(data[i].readings))
  {
    seq(|data|, i requires 0 <= i < |data| => DustbinView(data[i].row, LatestFill(data[i].readings)))
  }

  /** The query's filter: an admin whose profile has an institution sees only that institution's dustbins. */
  function InstitutionScope(data: seq<DustbinWithReadings>, role: Option<Role>, profileInstitution: Option<string>): (r: seq<DustbinWithReadings>)
    ensures role == Some(Admin) && profileInstitution.Some? && profileInstitution.value != "" ==>
              forall d :: d in r <==> d in data && d.row.institutionId == profileInstitution.value
    ensures !(role == Some(Admin) && profileInstitution.Some? && profileInstitution.value != "") ==> r == data
  {
    if role == Some(Admin) && profileInstitution.Some? && profileInstitution.value != "" then
      Filter(data, (d: DustbinWithReadings) => d.row.institutionId == profileInstitution.value)
    else data
  }

  /** The scoped rows keep the order the store returned them in. */
  lemma InstitutionScopeKeepsOrder(data: seq<DustbinWithReadings>, role: Option<Role>, profileInstitution: Option<string>)
    ensures IsSubsequence(InstitutionScope(data, role, profileInstitution), data)
  {
    if role == Some(Admin) && profileInstitution.Some? && profileInstitution.value != "" {
      FilterIsSubsequence(data, (d: DustbinWithReadings) => d.row.institutionId == profileInstitution.value);
    } else {
      SubsequenceReflexive(data);
    }
  }

  /** `visibleApiKeys` after toggling `id`. */
  function Toggled(visible: set<string>, id: string): (r: set<string>)
    ensures id in r <==> id !in visible
    ensures forall x :: x != id ==> (x in r <==> x in visible)
  {
    if id in visible then visible - {id} else visible + {id}
  }

  lemma ToggleTwiceRestores(visible: set<string>, id: string)
    ensures Toggled(Toggled(visible, id), id) == visible
  {
  }

  /** The list component's state. */
  class ListView {
    var dustbins: seq<DustbinView>
    var loading: bool
    var visibleApiKeys: set<string>
    var toasts: seq<Toast>

    constructor ()
      ensures dustbins == [] && loading && visibleApiKeys == {} && toasts == []
    {
      dustbins := [];
      loading := true;
      visibleApiKeys := {};
      toasts := [];
    }

    /** `fetchDustbins`: `data` holds the table's rows in the query's order, `queryError` the query's error. */
    method FetchDustbins(data: seq<DustbinWithReadings>, queryError: Option<string>,
                         role: Option<Role>, profileInstitution: Option<string>)
      modifies this`dustbins, this`loading, this`toasts
      ensures !loading
      ensures queryError.Some? ==> dustbins == old(dustbins) && toasts == old(toasts) + [Toast(true, "Error", queryError.value)]
      ensures queryError.None? ==> dustbins == WithLatestFill(InstitutionScope(data, role, profileInstitution)) && toasts == old(toasts)
    {
      if queryError.Some? {
        toasts := toasts + [Toast(true, "Error", queryError.value)];
      } else {
        dustbins := WithLatestFill(InstitutionScope(data, role, profileInstitution));
      }
      loading := false;
    }

    method ToggleApiKeyVisibility(id: string)
      modifies this`visibleApiKeys
      ensures visibleApiKeys == Toggled(old(visibleApiKeys), id)
    {
      var next := visibleApiKeys;
      if id in next {
        next := next - {id};
      } else {
        next := next + {id};
      }
      visibleApiKeys := next;
    }
  }
}
