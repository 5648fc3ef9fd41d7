/** The drill-down selection kept in the session: which province, city and
    district are selected, and whether a reset is in progress. The map's
    change callback and the two "back" buttons update it. */
module Session {
  import opened Options

  /** The properties of the clicked map feature: a city polygon carries
      `WADMKK` and `WADMPR`, a province polygon only `WADMPR`. */
  datatype Feature = Feature(wadmkk: Option<string>, wadmpr: Option<string>)

  /** The map widget's state when its change callback runs: whether
      `last_clicked` is set, and the last feature drawn active, if any. */
  datatype MapEvent = MapEvent(lastClicked: bool, lastActiveDrawing: Option<Feature>)

  /** Whether the callback ran to its end or raised (no active feature to
      read properties from, or a city feature without `WADMPR`). */
  datatype Outcome = Completed | Raised

  /** A snapshot of the three selection fields. */
  datatype Selection = Selection(province: Option<string>, city: Option<string>, district: Option<string>)

  const NothingSelected := Selection(None, None, None)

  class DrillDownState {
    var clickedProvince: Option<string>
    var clickedCity: Option<string>
    var clickedDistrict: Option<string>
    var resetInProgress: bool

    /** No orphaned selection: a city is selected only inside a selected
        province, and no district is ever selected. */
    ghost predicate Valid()
      reads this
    {
      && (clickedCity.Some? ==> clickedProvince.Some?)
      && clickedDistrict == None
    }

    function Current(): Selection
      reads this
    {
      Selection(clickedProvince, clickedCity, clickedDistrict)
    }

    /** The session fields on first run: nothing selected, no reset pending. */
    constructor ()
      ensures Valid()
      ensures Current() == NothingSelected && !resetInProgress
    {
      clickedProvince := None;
      clickedCity := None;
      clickedDistrict := None;
      resetInProgress := false;
    }

    /** The map's change callback. A pending reset swallows the event.
        Otherwise a clicked city feature selects that city and its province
        unless that city is already selected, and a clicked province feature
        selects that province, clearing the city, unless it is already selected. */
    method Callback(event: MapEvent) returns (outcome: Outcome)
      requires Valid()
      modifies this
      ensures Valid()
      ensures old(resetInProgress) ==> outcome == Completed && !resetInProgress && Current() == old(Current())
      ensures !old(resetInProgress) ==> !resetInProgress
      ensures !old(resetInProgress) && !event.lastClicked ==> outcome == Completed && Current() == old(Current())
      ensures !old(resetInProgress) && event.lastClicked && event.lastActiveDrawing.None? ==>
        outcome == Raised && Current() == old(Current())
      ensures !old(resetInProgress) && event.lastClicked && event.lastActiveDrawing.Some? ==>
        var f := event.lastActiveDrawing.value;
        if f.wadmkk.Some? then
          if f.wadmpr.None? then outcome == Raised && Current() == old(Current())
          else if f.wadmkk != old(clickedCity) then outcome == Completed && Current() == Selection(f.wadmpr, f.wadmkk, None)
          else outcome == Completed && Current() == old(Current())
        else if f.wadmpr.Some? && f.wadmpr != old(clickedProvince) then
          outcome == Completed && Current() == Selection(f.wadmpr, None, None)
        else outcome == Completed && Current() == old(Current())
    {
      if resetInProgress {
        resetInProgress := false;
        return Completed;
      }
      outcome := Completed;
      if event.lastClicked {
        if event.lastActiveDrawing.None? {
          return Raised;
        }
        var properties := event.lastActiveDrawing.value;
        if properties.wadmkk.Some? {
          if properties.wadmpr.None? {
            return Raised;
          }
          var city := properties.wadmkk;
          var province := properties.wadmpr;
          if city != clickedCity {
            clickedCity := city;
            clickedProvince := province;
            clickedDistrict := None;
          }
        } else if properties.wadmpr.Some? {
          var province := properties.wadmpr;
          if province != clickedProvince {
            clickedProvince := province;
            clickedCity := None;
            clickedDistrict := None;
          }
        }
      }
    }

    /** "Back to Province View": clear every selection and swallow the next
        map event. */
    method ResetToProvinceView()
      modifies this
      ensures Valid()
      ensures Current() == NothingSelected && resetInProgress
    {
      clickedProvince := None;
      clickedCity := None;
      clickedDistrict := None;
      resetInProgress := true;
    }

    /** "Back to City View": clear the city and district, keep the province,
        and swallow the next map event. */
    method ResetToCityView()
      modifies this
      ensures Valid()
      ensures Current() == Selection(old(clickedProvince), None, None) && resetInProgress
    {
      clickedDistrict := None;
      clickedCity := None;
      resetInProgress := true;
    }
  }

  /** A drill-down as a user performs it: province BALI, then city DENPASAR;
      clicking DENPASAR again keeps it selected. */
  method DrillDownScenario()
  {
    var s := new DrillDownState();
    var o := s.Callback(MapEvent(true, Some(Feature(None, Some("BALI")))));
    assert s.Current() == Selection(Some("BALI"), None, None);
    o := s.Callback(MapEvent(true, Some(Feature(Some("DENPASAR"), Some("BALI")))));
    assert s.Current() == Selection(Some("BALI"), Some("DENPASAR"), None);
    o := s.Callback(MapEvent(true, Some(Feature(Some("DENPASAR"), Some("BALI")))));
    assert s.Current() == Selection(Some("BALI"), Some("DENPASAR"), None);
    s.ResetToCityView();
    o := s.Callback(MapEvent(true, Some(Feature(Some("DENPASAR"), Some("BALI")))));
    assert s.Current() == Selection(Some("BALI"), None, None) && !s.resetInProgress;
  }
}
