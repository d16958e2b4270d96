/** The dustbin map view: marker colours by fill level, the map centre that
    follows the listed dustbins, and dragging a marker to move a dustbin. The
    query filter and the latest-fill rule are the list view's. */
module DustbinMap {
  import opened Common
  import opened Tables
  import opened DustbinList

  datatype LatLng = LatLng(lat: real, lng: real)

  /** The centre before any dustbin is loaded. */
  const DefaultCenter := LatLng(28.6139, 77.2090)

  const Green := "#22c55e"
  const Yellow := "#eab308"
  const Red := "#ef4444"

  function IconColor(percentage: real): (r: string)
    ensures r == Green <==> percentage < 50.0
    ensures r == Yellow <==> 50.0 <= percentage < 75.0
    ensures r == Red <==> percentage >= 75.0
  {
    if percentage < 50.0 then Green
    else if percentage < 75.0 then Yellow
    else Red
  }

  /** The map's marker colours partition fill levels exactly as the list's classification does. */
  lemma MapAgreesWithList(percentage: real)
    ensures IconColor(percentage) == Green <==> FillLevelColor(percentage) == "text-success"
    ensures IconColor(percentage) == Yellow <==> FillLevelColor(percentage) == "text-warning"
    ensures IconColor(percentage) == Red <==> FillLevelColor(percentage) == "text-danger"
  {
  }

  function SumLat(ds: seq<DustbinView>): real
    decreases |ds|
  {
    if ds == [] then 0.0 else ds[0].row.latitude + SumLat(ds[1..])
  }

  function SumLng(ds: seq<DustbinView>): real
    decreases |ds|
  {
    if ds == [] then 0.0 else ds[0].row.longitude + SumLng(ds[1..])
  }

  /** The centre after a fetch: the mean position of the listed dustbins, or the previous centre when there are none. */
  function NextCenter(center: LatLng, ds: seq<DustbinView>): (c: LatLng)
    ensures ds == [] ==> c == center
    // Otherwise each coordinate times the count is that coordinate's sum: the mean.
    ensures ds != [] ==> c.lat * |ds| as real == SumLat(ds) && c.lng * |ds| as real == SumLng(ds)
  {
    if |ds| > 0 then LatLng(SumLat(ds) / |ds| as real, SumLng(ds) / |ds| as real) else center
  }

  /** Each term of the latitude sum lies between the extreme latitudes. */
  lemma {:induction false} SumLatBounds(ds: seq<DustbinView>, lo: real, hi: real)
    requires forall d :: d in ds ==> lo <= d.row.latitude <= hi
    ensures |ds| as real * lo <= SumLat(ds) <= |ds| as real * hi
    decreases |ds|
  {
    if ds != [] {
      SumLatBounds(ds[1..], lo, hi);
      assert ds[0] in ds;
      assert |ds| as real * lo == (|ds| - 1) as real * lo + lo;
      assert |ds| as real * hi == (|ds| - 1) as real * hi + hi;
    }
  }

  lemma {:induction false} SumLngBounds(ds: seq<DustbinView>, lo: real, hi: real)
    requires forall d :: d in ds ==> lo <= d.row.longitude <= hi
    ensures |ds| as real * lo <= SumLng(ds) <= |ds| as real * hi
    decreases |ds|
  {
    if ds != [] {
      SumLngBounds(ds[1..], lo, hi);
      assert ds[0] in ds;
      assert |ds| as real * lo == (|ds| - 1) as real * lo + lo;
      assert |ds| as real * hi == (|ds| - 1) as real * hi + hi;
    }
  }

  lemma MeanLatInRange(ds: seq<DustbinView>, lo: real, hi: real)
    requires ds != []
    requires forall d :: d in ds ==> lo <= d.row.latitude <= hi
    ensures lo <= SumLat(ds) / |ds| as real <= hi
  {
    SumLatBounds(ds, lo, hi);
    DivideBounds(SumLat(ds), |ds| as real, lo, hi);
  }

  lemma MeanLngInRange(ds: seq<DustbinView>, lo: real, hi: real)
    requires ds != []
    requires forall d :: d in ds ==> lo <= d.row.longitude <= hi
    ensures lo <= SumLng(ds) / |ds| as real <= hi
  {
    SumLngBounds(ds, lo, hi);
    DivideBounds(SumLng(ds), |ds| as real, lo, hi);
  }

  /** With no dustbins the centre stays; otherwise it lies inside any box that holds every dustbin. */
  lemma CenterStaysInBox(center: LatLng, ds: seq<DustbinView>, box0: LatLng, box1: LatLng)
    requires forall d :: d in ds ==> box0.lat <= d.row.latitude <= box1.lat && box0.lng <= d.row.longitude <= box1.lng
    ensures ds == [] ==> NextCenter(center, ds) == center
    ensures ds != [] ==>
              box0.lat <= NextCenter(center, ds).lat <= box1.lat &&
              box0.lng <= NextCenter(center, ds).lng <= box1.lng
  {
    if ds != [] {
      MeanLatInRange(ds, box0.lat, box1.lat);
      MeanLngInRange(ds, box0.lng, box1.lng);
    }
  }

  lemma DivideBounds(sum: real, n: real, lo: real, hi: real)
    requires n > 0.0 && n * lo <= sum <= n * hi
    ensures lo <= sum / n <= hi
  {
    assert sum / n * n == sum;
  }

  /** The map component's state. */
  class MapView {
    var dustbins: seq<DustbinView>
    var center: LatLng
    var toasts: seq<Toast>

    constructor ()
      ensures dustbins == [] && center == DefaultCenter && toasts == []
    {
      dustbins := [];
      center := DefaultCenter;
      toasts := [];
    }

    /** `fetchDustbins`: the list view's scoped rows and latest-fill values, then the centre rule. */
    method FetchDustbins(data: seq<DustbinWithReadings>, queryError: Option<string>,
                         role: Option<Role>, profileInstitution: Option<string>)
      modifies this
      ensures queryError.Some? ==>
                dustbins == old(dustbins) && center == old(center) &&
                toasts == old(toasts) + [Toast(true, "Error", queryError.value)]
      ensures queryError.None? ==>
                && dustbins == WithLatestFill(InstitutionScope(data, role, profileInstitution))
                && center == NextCenter(old(center), dustbins)
                && toasts == old(toasts)
    {
      if queryError.Some? {
        toasts := toasts + [Toast(true, "Error", queryError.value)];
        return;
      }
      dustbins := WithLatestFill(InstitutionScope(data, role, profileInstitution));
      if |dustbins| > 0 {
        center := LatLng(SumLat(dustbins) / |dustbins| as real, SumLng(dustbins) / |dustbins| as real);
      }
    }

    /** `handleUpdatePosition`: only the latitude and longitude of the rows with that `id` change. */
    method HandleUpdatePosition(table: DustbinTable, id: string, lat: real, lng: real, updateError: Option<string>)
      modifies table, this`toasts
      ensures updateError.Some? ==>
                table.rows == old(table.rows) && toasts == old(toasts) + [Toast(true, "Error", updateError.value)]
      ensures updateError.None? ==>
                && |table.rows| == |old(table.rows)|
                && (forall i :: 0 <= i < |table.rows| && old(table.rows)[i].id != id ==> table.rows[i] == old(table.rows)[i])
                && (forall i :: 0 <= i < |table.rows| && old(table.rows)[i].id == id ==>
                      table.rows[i] == old(table.rows)[i].(latitude := lat, longitude := lng))
                && toasts == old(toasts) + [Toast(false, "Success", "Dustbin location updated")]
    {
      if updateError.Some? {
        toasts := toasts + [Toast(true, "Error", updateError.value)];
        return;
      }
      table.rows := UpdateWhereId(table.rows, id, (d: Dustbin) => d.(latitude := lat, longitude := lng));
      toasts := toasts + [Toast(false, "Success", "Dustbin location updated")];
    }

    /** A marker's drag end: only an editable map with a mounted marker calls `HandleUpdatePosition`. */
    method HandleDragEnd(table: DustbinTable, editable: bool, markerMounted: bool,
                         id: string, lat: real, lng: real, updateError: Option<string>)
      modifies table, this`toasts
      ensures !(editable && markerMounted) ==> table.rows == old(table.rows) && toasts == old(toasts)
      ensures editable && markerMounted && updateError.Some? ==> table.rows == old(table.rows)
      ensures editable && markerMounted && updateError.None? ==>
                && |table.rows| == |old(table.rows)|
                && (forall i :: 0 <= i < |table.rows| ==>
                      table.rows[i] == if old(table.rows)[i].id == id
                                       then old(table.rows)[i].(latitude := lat, longitude := lng)
                                       else old(table.rows)[i])
      ensures editable && markerMounted ==>
                toasts == old(toasts) + [if updateError.Some? then Toast(true, "Error", updateError.value)
                                         else Toast(false, "Success", "Dustbin location updated")]
    {
      if editable && markerMounted {
        HandleUpdatePosition(table, id, lat, lng, updateError);
      }
    }
  }
}
