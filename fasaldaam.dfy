/** The price prediction screen (pages/Fasaldaam.tsx): the request guard and
    reset, the six-month history window and the detected market label. The
    history prices are random and are not modelled, only their months. */
module Fasaldaam {

  import opened Types
  import GeminiService

  const MONTH_NAMES: seq<string> :=
    ["Jan", "Feb", "Mar", "Apr", "May", "Jun", "Jul", "Aug", "Sep", "Oct", "Nov", "Dec"]

  /** The index of the month `i + 1` months before `current`, wrapped once. */
  function PastMonthIndex(current: int, i: int): (r: int)
    requires 0 <= current < 12 && 0 <= i <= 5
    ensures 0 <= r < 12
    ensures r == (current - i - 1) % 12
  {
    var idx := current - i - 1;
    if idx < 0 then idx + 12 else idx
  }

  /** `generateHistory`'s month list for the month `currentMonth` (0-based,
      as `getMonth` gives it): the six months before it, oldest first. */
  method GenerateHistory(currentMonth: int) returns (months: seq<string>)
    requires 0 <= currentMonth < 12
    ensures |months| == 6
    ensures forall k | 0 <= k < 6 :: months[k] == MONTH_NAMES[(currentMonth - 6 + k) % 12]
    ensures months[5] == MONTH_NAMES[(currentMonth + 11) % 12]
    ensures forall j, k | 0 <= j < k < 6 :: months[j] != months[k]
  {
    months := [];
    var i := 5;
    while i >= 0
      invariant -1 <= i <= 5
      invariant |months| == 5 - i
      invariant forall k | 0 <= k < |months| :: months[k] == MONTH_NAMES[(currentMonth - 6 + k) % 12]
    {
      var idx := PastMonthIndex(currentMonth, i);
      assert (currentMonth - 6 + |months|) == currentMonth - i - 1;
      months := months + [MONTH_NAMES[idx]];
      i := i - 1;
    }
    assert (currentMonth - 6 + 5) % 12 == (currentMonth + 11) % 12;
    forall j, k | 0 <= j < k < 6 ensures months[j] != months[k] {
      WindowIndicesDistinct(currentMonth, j, k);
    }
  }

  /** Two positions of the window name different months. */
  lemma WindowIndicesDistinct(currentMonth: int, j: int, k: int)
    requires 0 <= currentMonth < 12 && 0 <= j < k < 6
    ensures MONTH_NAMES[(currentMonth - 6 + j) % 12] != MONTH_NAMES[(currentMonth - 6 + k) % 12]
  {
    var x, y := (currentMonth - 6 + j) % 12, (currentMonth - 6 + k) % 12;
    assert x != y;
  }

  /** The detected market: city, else town, else village, else state
      district, else "Unknown Location". */
  function DetectedDistrict(a: Address): (r: string)
    ensures r != ""
    ensures var p := FirstPresent([a.city, a.town, a.village, a.stateDistrict]);
            r == if p.Some? then p.value else "Unknown Location"
  {
    FirstPresentCons(a.stateDistrict, []);
    FirstPresentCons(a.village, [a.stateDistrict]);
    FirstPresentCons(a.town, [a.village, a.stateDistrict]);
    FirstPresentCons(a.city, [a.town, a.village, a.stateDistrict]);
    assert [a.stateDistrict] + [] == [a.stateDistrict];
    assert [a.village] + [a.stateDistrict] == [a.village, a.stateDistrict];
    assert [a.town] + [a.village, a.stateDistrict] == [a.town, a.village, a.stateDistrict];
    assert [a.city] + [a.town, a.village, a.stateDistrict] == [a.city, a.town, a.village, a.stateDistrict];
    OrStr(a.city, OrStr(a.town, OrStr(a.village, OrStr(a.stateDistrict, "Unknown Location"))))
  }

  const NOT_SUPPORTED := "Geolocation is not supported."
  const NAME_FAILED := "Could not detect location name."
  const ACCESS_DENIED := "Location access denied."

  /** The screen's state; `historyMonths` are the months of the price
      history. */
  class FasaldaamScreen {
    var crop: string
    var district: string
    var loading: bool
    var locationLoading: bool
    var prediction: Option<PricePrediction>
    var historyMonths: seq<string>

    constructor ()
      ensures crop == "" && district == "" && !loading && !locationLoading
      ensures prediction.None? && historyMonths == []
    {
      crop := "";
      district := "";
      loading := false;
      locationLoading := false;
      prediction := None;
      historyMonths := [];
    }

    /** `handlePredict` in month `currentMonth`; `reply` is the price model's
        answer. Nothing happens without a crop and a district; otherwise the
        prediction and its six-month window replace the old ones. */
    method HandlePredict(apiKey: Option<string>, reply: Outcome<GeminiService.PricePayload>,
                         currentMonth: int)
      requires 0 <= currentMonth < 12
      modifies this
      ensures crop == old(crop) && district == old(district) && locationLoading == old(locationLoading)
      ensures crop == "" || district == "" ==>
                prediction == old(prediction) && historyMonths == old(historyMonths) && loading == old(loading)
      ensures crop != "" && district != "" ==>
                && prediction == Some(GeminiService.PredictCropPrice(apiKey, crop, district, reply))
                && |historyMonths| == 6 && !loading
                && forall k | 0 <= k < 6 :: historyMonths[k] == MONTH_NAMES[(currentMonth - 6 + k) % 12]
    {
      if crop == "" || district == "" {
        return;
      }
      loading := true;
      prediction := None;
      historyMonths := [];
      var data := GeminiService.PredictCropPrice(apiKey, crop, district, reply);
      prediction := Some(data);
      historyMonths := GenerateHistory(currentMonth);
      loading := false;
    }

    /** `handleDetectLocation`: `supported` is whether the browser has
        geolocation, `position` the fix (None when access is refused) and
        `address` the reverse-geocoding result. Returns the alert shown, if
        any. */
    method HandleDetectLocation(supported: bool, position: Option<Coords>, address: Outcome<Address>)
      returns (alert: Option<string>)
      modifies this
      ensures crop == old(crop) && prediction == old(prediction) && historyMonths == old(historyMonths)
      ensures loading == old(loading)
      ensures !supported ==> alert == Some(NOT_SUPPORTED) && district == old(district)
                             && locationLoading == old(locationLoading)
      ensures supported ==> !locationLoading
      ensures supported && position.None? ==> alert == Some(ACCESS_DENIED) && district == old(district)
      ensures supported && position.Some? && address.Threw? ==>
                alert == Some(NAME_FAILED) && district == old(district)
      ensures supported && position.Some? && address.Returned? ==>
                alert.None? && district == DetectedDistrict(address.value)
    {
      if !supported {
        alert := Some(NOT_SUPPORTED);
        return;
      }
      locationLoading := true;
      if position.None? {
        alert := Some(ACCESS_DENIED);
        locationLoading := false;
        return;
      }
      alert := None;
      match address {
        case Returned(a) =>
          district := DetectedDistrict(a);
        case Threw =>
          alert := Some(NAME_FAILED);
      }
      locationLoading := false;
    }
  }
}
