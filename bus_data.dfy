/** Class `BusData`: route-info extraction, the arrival query and the
    arrival report formatter. The two HTTP responses are inputs. */
module BusData {
  import opened Wrappers
  import opened Text

  /** The two terminal stops of a route. */
  datatype RouteInfo = RouteInfo(start: string, end: string)

  /** One element of the estimated-arrival response: `StopName.Zh_tw`,
      `Direction` and `EstimateTime`, each of which may be absent. */
  datatype ArrivalRecord = ArrivalRecord(stopName: Option<string>, direction: Option<int>, estimate: Option<int>)

  /** One element of the route-lookup response. */
  datatype RouteRecord = RouteRecord(departureStopNameZh: Option<string>, destinationStopNameZh: Option<string>)

  /** What the route-lookup request produced: a response, or an exception
      raised while fetching or decoding it. */
  datatype RouteResponse = RouteReply(status: int, routes: seq<RouteRecord>) | RouteRaised(message: string)

  /** What the estimated-arrival request produced. */
  datatype ArrivalResponse = ArrivalReply(status: int, records: seq<ArrivalRecord>) | ArrivalRaised(message: string)

  const ArrivingSoon := "即將到站"
  const UnknownStop := "未知站名"
  const UnknownStart := "未知起點"
  const UnknownEnd := "未知終點"
  const NoRouteData := "查無此路線資料"
  const NoRouteInfo := "無法獲取路線資訊"
  const NoData := "無法獲取資料"

  // ---------------------------------------------------------------------
  // process_bus_data

  /** The arrival text of one stop: "arriving soon" under 90 seconds,
      otherwise whole minutes (floor division by 60). */
  function ArrivalText(estimate: int): string {
    if estimate < 90 then ArrivingSoon else NatToString(estimate / 60) + "分鐘"
  }

  /** A record contributes to the report for `direction`. */
  predicate Keeps(rec: ArrivalRecord, direction: int) {
    rec.estimate.Some? && rec.direction == Some(direction)
  }

  /** The block one kept record renders as. */
  function StopBlock(rec: ArrivalRecord): string
    requires rec.estimate.Some?
  {
    "站名: " + rec.stopName.GetOr(UnknownStop) + "\n預估到站時間: " + ArrivalText(rec.estimate.value) + "\n"
  }

  /** The `stops_info` list: one block per kept record. */
  function StopsInfo(data: seq<ArrivalRecord>, direction: int): seq<string>
    decreases |data|
  {
    if data == [] then []
    else (if Keeps(data[0], direction) then [StopBlock(data[0])] else []) + StopsInfo(data[1..], direction)
  }

  function DirectionName(info: RouteInfo, direction: int): string {
    if direction == 0 then info.end else info.start
  }

  /** The reply `process_bus_data` builds. */
  function Report(data: seq<ArrivalRecord>, info: RouteInfo, direction: int): string {
    if data == [] then NoRouteData
    else
      var stops := StopsInfo(data, direction);
      var name := DirectionName(info, direction);
      if stops != [] then "往" + name + "方向的公車：\n\n" + Join("\n", stops)
      else "目前往" + name + "方向無公車即將到站"
  }

  /** `BusData.process_bus_data`: walks the records once, appending a block
      for each kept one, then joins them under the header. */
  method ProcessBusData(data: seq<ArrivalRecord>, info: RouteInfo, direction: int) returns (r: string)
    ensures r == Report(data, info, direction)
  {
    if data == [] {
      return NoRouteData;
    }
    var stopsInfo: seq<string> := [];
    var i := 0;
    while i < |data|
      invariant 0 <= i <= |data|
      invariant stopsInfo == StopsInfo(data[..i], direction)
    {
      var stop := data[i];
      StopsInfoConcat(data[..i], [stop], direction);
      assert data[..i + 1] == data[..i] + [stop];
      if stop.estimate.Some? && stop.direction == Some(direction) {
        var stopName := stop.stopName.GetOr(UnknownStop);
        var estimateTime := stop.estimate.value;
        var arrivalInfo;
        if estimateTime < 90 {
          arrivalInfo := ArrivingSoon;
        } else {
          var estimateMinutes := estimateTime / 60;
          arrivalInfo := NatToString(estimateMinutes) + "分鐘";
        }
        stopsInfo := stopsInfo + ["站名: " + stopName + "\n預估到站時間: " + arrivalInfo + "\n"];
      }
      i := i + 1;
    }
    assert data[..i] == data;
    var directionName := if direction == 0 then info.end else info.start;
    if stopsInfo != [] {
      r := "往" + directionName + "方向的公車：\n\n" + Join("\n", stopsInfo);
    } else {
      r := "目前往" + directionName + "方向無公車即將到站";
    }
  }

  // ---------------------------------------------------------------------
  // Properties of the formatter

  /** The text is "arriving soon" exactly when the estimate is under 90 seconds. */
  lemma ArrivalTextSoonIff(estimate: int)
    ensures ArrivalText(estimate) == ArrivingSoon <==> estimate < 90
  {
    if estimate >= 90 {
      var t := ArrivalText(estimate);
      assert t[|t| - 1] == '鐘';
      assert ArrivingSoon[|ArrivingSoon| - 1] == '站';
    }
  }

  /** From 90 seconds on, the text is a decimal number of minutes followed by
      "分鐘", and that number is the estimate in minutes rounded down. */
  lemma ArrivalTextMinutes(estimate: int)
    requires estimate >= 90
    ensures var t := ArrivalText(estimate);
            |t| >= 3 && t[|t| - 2..] == "分鐘" && IsDigits(t[..|t| - 2]) && t[0] != '0' &&
            ParseNat(t[..|t| - 2]) * 60 <= estimate < ParseNat(t[..|t| - 2]) * 60 + 60
  {
    var digits := NatToString(estimate / 60);
    var t := ArrivalText(estimate);
    assert t[..|t| - 2] == digits;
    ParseNatToString(estimate / 60);
  }

  /** The worked figures: 89 s, 90 s and 125 s. */
  lemma ArrivalTextExamples()
    ensures ArrivalText(89) == "即將到站"
    ensures ArrivalText(90) == "1分鐘"
    ensures ArrivalText(125) == "2分鐘"
  {
  }

  /** `StopsInfo` maps concatenation to concatenation: each record's
      contribution lands in input order, independent of its neighbours. */
  lemma {:induction false} StopsInfoConcat(a: seq<ArrivalRecord>, b: seq<ArrivalRecord>, direction: int)
    ensures StopsInfo(a + b, direction) == StopsInfo(a, direction) + StopsInfo(b, direction)
    decreases |a|
  {
    if a == [] {
      assert a + b == b;
    } else {
      assert (a + b)[1..] == a[1..] + b;
      StopsInfoConcat(a[1..], b, direction);
    }
  }

  /** A single record contributes its block if it is kept and nothing otherwise. */
  lemma StopsInfoSingle(rec: ArrivalRecord, direction: int)
    ensures StopsInfo([rec], direction) == if Keeps(rec, direction) then [StopBlock(rec)] else []
  {
    assert [rec][1..] == [];
  }

  /** There are no blocks exactly when no record is kept. */
  lemma {:induction false} StopsInfoEmptyIff(data: seq<ArrivalRecord>, direction: int)
    ensures StopsInfo(data, direction) == [] <==> forall i :: 0 <= i < |data| ==> !Keeps(data[i], direction)
    decreases |data|
  {
    if data != [] {
      StopsInfoEmptyIff(data[1..], direction);
      forall i | 1 <= i < |data| ensures data[i] == data[1..][i - 1] { }
    }
  }

  /** Every block is the block of a kept record, and every kept record has its block. */
  lemma {:induction false} StopsInfoMembers(data: seq<ArrivalRecord>, direction: int, b: string)
    ensures b in StopsInfo(data, direction) <==>
            exists i :: 0 <= i < |data| && Keeps(data[i], direction) && b == StopBlock(data[i])
    decreases |data|
  {
    if data != [] {
      StopsInfoMembers(data[1..], direction, b);
      if b in StopsInfo(data[1..], direction) {
        var i :| 0 <= i < |data[1..]| && Keeps(data[1..][i], direction) && b == StopBlock(data[1..][i]);
        assert data[i + 1] == data[1..][i];
      }
      if exists i :: 0 <= i < |data| && Keeps(data[i], direction) && b == StopBlock(data[i]) {
        var i :| 0 <= i < |data| && Keeps(data[i], direction) && b == StopBlock(data[i]);
        if i > 0 {
          assert data[1..][i - 1] == data[i];
        }
      }
    }
  }

  /** No records at all: the fixed reply, whatever the route and direction. */
  lemma ReportEmptyInput(info: RouteInfo, direction: int)
    ensures Report([], info, direction) == "查無此路線資料"
  {
  }

  /** Records, but none kept: the "no bus toward ..." reply. */
  lemma ReportNoneKept(data: seq<ArrivalRecord>, info: RouteInfo, direction: int)
    requires data != []
    requires forall i :: 0 <= i < |data| ==> !Keeps(data[i], direction)
    ensures Report(data, info, direction) == "目前往" + DirectionName(info, direction) + "方向無公車即將到站"
  {
    StopsInfoEmptyIff(data, direction);
  }

  /** At least one kept record: the header, then the blocks joined by newlines. */
  lemma ReportSomeKept(data: seq<ArrivalRecord>, info: RouteInfo, direction: int, i: int)
    requires 0 <= i < |data| && Keeps(data[i], direction)
    ensures Report(data, info, direction) ==
            "往" + DirectionName(info, direction) + "方向的公車：\n\n" + Join("\n", StopsInfo(data, direction))
  {
    StopsInfoEmptyIff(data, direction);
  }

  /** A record that is not kept does not change the report, wherever it stands. */
  lemma ReportIgnoresUnkept(a: seq<ArrivalRecord>, x: ArrivalRecord, b: seq<ArrivalRecord>, info: RouteInfo, direction: int)
    requires !Keeps(x, direction)
    requires a + b != []
    ensures Report(a + [x] + b, info, direction) == Report(a + b, info, direction)
  {
    StopsInfoConcat(a + [x], b, direction);
    StopsInfoConcat(a, [x], direction);
    StopsInfoConcat(a, b, direction);
    StopsInfoSingle(x, direction);
    assert StopsInfo(a + [x] + b, direction) == StopsInfo(a + b, direction);
  }

  /** The direction name: the destination for direction 0, the origin otherwise. */
  lemma DirectionNameExample()
    ensures var data := [ArrivalRecord(Some("X"), Some(1), Some(45))];
            Report(data, RouteInfo("A", "B"), 0) == "目前往B方向無公車即將到站"
    ensures var data := [ArrivalRecord(Some("X"), Some(0), Some(45))];
            Report(data, RouteInfo("A", "B"), 1) == "目前往A方向無公車即將到站"
  {
  }

  /** One kept stop 45 s away, toward "Y". */
  lemma ReportExample()
    ensures StopBlock(ArrivalRecord(Some("X"), Some(0), Some(45))) == "站名: X\n預估到站時間: 即將到站\n"
    ensures Report([ArrivalRecord(Some("X"), Some(0), Some(45))], RouteInfo("S", "Y"), 0) ==
            "往Y方向的公車：\n\n" + StopBlock(ArrivalRecord(Some("X"), Some(0), Some(45)))
  {
    var x := ArrivalRecord(Some("X"), Some(0), Some(45));
    StopsInfoSingle(x, 0);
  }

  /** A record without a stop name renders the placeholder "未知站名". */
  lemma UnknownStopName(rec: ArrivalRecord)
    requires rec.estimate.Some? && rec.stopName.None?
    ensures StopBlock(rec) == "站名: 未知站名\n預估到站時間: " + ArrivalText(rec.estimate.value) + "\n"
  {
  }

  // ---------------------------------------------------------------------
  // get_route_info

  /** The route info `get_route_info` extracts from a lookup response. */
  function RouteInfoOf(resp: RouteResponse): Option<RouteInfo> {
    match resp
    case RouteRaised(_) => None
    case RouteReply(status, routes) =>
      if status == 200 && routes != [] then
        Some(RouteInfo(routes[0].departureStopNameZh.GetOr(UnknownStart),
                       routes[0].destinationStopNameZh.GetOr(UnknownEnd)))
      else None
  }

  /** A route is found exactly for a 200 response with at least one route;
      its stops come from the first route, with placeholders for absent names. */
  lemma RouteInfoOfSpec(resp: RouteResponse)
    ensures RouteInfoOf(resp).Some? <==> resp.RouteReply? && resp.status == 200 && |resp.routes| > 0
    ensures RouteInfoOf(resp).Some? ==>
              var first := resp.routes[0];
              (first.departureStopNameZh.Some? ==> RouteInfoOf(resp).value.start == first.departureStopNameZh.value) &&
              (first.departureStopNameZh.None? ==> RouteInfoOf(resp).value.start == "未知起點") &&
              (first.destinationStopNameZh.Some? ==> RouteInfoOf(resp).value.end == first.destinationStopNameZh.value) &&
              (first.destinationStopNameZh.None? ==> RouteInfoOf(resp).value.end == "未知終點")
  {
  }

  /** Only the first route of the response is looked at. */
  lemma RouteInfoOfFirstOnly(status: int, first: RouteRecord, rest1: seq<RouteRecord>, rest2: seq<RouteRecord>)
    ensures RouteInfoOf(RouteReply(status, [first] + rest1)) == RouteInfoOf(RouteReply(status, [first] + rest2))
  {
  }

  // ---------------------------------------------------------------------
  // get_bus_info

  /** The reply of `get_bus_info`, which looks the route up itself and then
      fetches the arrivals. */
  function BusInfo(routeLookup: RouteResponse, arrivals: ArrivalResponse, direction: int): string {
    match RouteInfoOf(routeLookup)
    case None => NoRouteInfo
    case Some(info) =>
      match arrivals
      case ArrivalRaised(message) => "錯誤: " + message
      case ArrivalReply(status, records) =>
        if status == 200 then Report(records, info, direction) else NoData
  }

  /** Without route info the arrival response is never consulted. */
  lemma BusInfoWithoutRoute(routeLookup: RouteResponse, a1: ArrivalResponse, a2: ArrivalResponse, direction: int)
    requires RouteInfoOf(routeLookup) == None
    ensures BusInfo(routeLookup, a1, direction) == BusInfo(routeLookup, a2, direction) == "無法獲取路線資訊"
  {
  }

  /** With route info: a non-200 status, an exception, or the formatter's result. */
  lemma BusInfoWithRoute(routeLookup: RouteResponse, arrivals: ArrivalResponse, direction: int)
    requires RouteInfoOf(routeLookup).Some?
    ensures arrivals.ArrivalRaised? ==> BusInfo(routeLookup, arrivals, direction) == "錯誤: " + arrivals.message
    ensures arrivals.ArrivalReply? && arrivals.status != 200 ==> BusInfo(routeLookup, arrivals, direction) == "無法獲取資料"
    ensures arrivals.ArrivalReply? && arrivals.status == 200 ==>
              BusInfo(routeLookup, arrivals, direction) == Report(arrivals.records, RouteInfoOf(routeLookup).value, direction)
  {
  }

  /** The route-failure text signals exactly a failed route lookup: no other
      path produces it. */
  lemma BusInfoRouteFailureIff(routeLookup: RouteResponse, arrivals: ArrivalResponse, direction: int)
    ensures BusInfo(routeLookup, arrivals, direction) == "無法獲取路線資訊" <==> RouteInfoOf(routeLookup) == None
  {
    var r := BusInfo(routeLookup, arrivals, direction);
    if RouteInfoOf(routeLookup).Some? {
      var info := RouteInfoOf(routeLookup).value;
      match arrivals
      case ArrivalRaised(message) =>
        assert r[0] == '錯';
      case ArrivalReply(status, records) =>
        if status == 200 {
          if records == [] {
            assert r[2] == '此';
          } else if StopsInfo(records, direction) != [] {
            assert r[0] == '往';
          } else {
            assert r[0] == '目';
          }
        } else {
          assert |r| == 6;
        }
    }
  }
}
