/** `handle_message`: the reply the bot sends for one text message. The
    network outcomes it depends on are inputs. */
module Handler {
  import opened Wrappers
  import opened Text
  import opened BusData

  // ---------------------------------------------------------------------
  // The pattern 往(.*?)方向(\d+)號公車 under re.match

  /** End of the run of digits that starts at `j`. */
  function DigitRunEnd(s: string, j: nat): (k: nat)
    requires j <= |s|
    ensures j <= k <= |s|
    ensures forall m :: j <= m < k ==> IsDigit(s[m])
    ensures k == |s| || !IsDigit(s[k])
    decreases |s| - j
  {
    if j < |s| && IsDigit(s[j]) then DigitRunEnd(s, j + 1) else j
  }

  /** `方向(\d+)號公車` matches at index `i`. Since `號` is not a digit, the
      greedy `\d+` can only succeed with the whole run of digits. */
  predicate TailMatchesAt(s: string, i: nat) {
    i + 2 <= |s| && s[i..i + 2] == "方向" &&
    var k := DigitRunEnd(s, i + 2);
    k > i + 2 && k + 3 <= |s| && s[k..k + 3] == "號公車"
  }

  /** The lazy group 1 tried with end `i`, then `i + 1`, ...; `.` does not
      cross a newline. */
  function LazySearch(s: string, i: nat): Option<(string, string)>
    requires 1 <= i <= |s|
    decreases |s| - i
  {
    if TailMatchesAt(s, i) then Some((s[1..i], s[i + 2..DigitRunEnd(s, i + 2)]))
    else if i < |s| && s[i] != '\n' then LazySearch(s, i + 1)
    else None
  }

  /** `re.match(r'往(.*?)方向(\d+)號公車', s)`: groups 1 and 2, if it matches. */
  function MatchDirection(s: string): Option<(string, string)> {
    if |s| >= 1 && s[0] == '往' then LazySearch(s, 1) else None
  }

  /** `s` starts with 往, name, 方向, num, 號公車, where `name` is what `.*`
      can match and `num` what `\d+` can match. */
  ghost predicate Shape(s: string, name: string, num: string) {
    NoNewline(name) && IsDigits(num) &&
    var w := DirectionPayload(name, num);
    |w| <= |s| && s[..|w|] == w
  }

  /** The match a lazy group 1 selects: the shortest possible name. */
  ghost predicate LazyShape(s: string, name: string, num: string) {
    Shape(s, name, num) && forall name', num' :: Shape(s, name', num') ==> |name| <= |name'|
  }

  /** The pieces of 往 name 方向 num 號公車, by index. */
  lemma PayloadPieces(name: string, num: string)
    ensures var w := DirectionPayload(name, num);
            var i := 1 + |name|;
            var k := i + 2 + |num|;
            |w| == k + 3 && w[0] == '往' && w[1..i] == name && w[i..i + 2] == "方向" &&
            w[i + 2..k] == num && w[k..k + 3] == "號公車"
  {
  }

  /** A run of digits ended by a non-digit is the run `DigitRunEnd` finds. */
  lemma DigitRunEndAt(s: string, j: nat, k: nat)
    requires j <= k < |s| && !IsDigit(s[k])
    requires forall m :: j <= m < k ==> IsDigit(s[m])
    ensures DigitRunEnd(s, j) == k
  {
  }

  /** Where the pieces of a `Shape` sit in `s`. */
  lemma ShapePositions(s: string, name: string, num: string)
    requires Shape(s, name, num)
    ensures s[0] == '往' && s[1..1 + |name|] == name
    ensures TailMatchesAt(s, 1 + |name|)
    ensures DigitRunEnd(s, 3 + |name|) == 3 + |name| + |num|
    ensures s[3 + |name|..3 + |name| + |num|] == num
  {
    var w := DirectionPayload(name, num);
    var i := 1 + |name|;
    var k := i + 2 + |num|;
    PayloadPieces(name, num);
    var t := s[..|w|];
    assert t == w;
    assert s[0] == t[0];
    assert s[1..i] == t[1..i];
    assert s[i..i + 2] == t[i..i + 2];
    assert s[i + 2..k] == t[i + 2..k];
    assert s[k..k + 3] == t[k..k + 3];
    assert s[k] == '號';
    forall m | i + 2 <= m < k ensures IsDigit(s[m]) {
      assert s[m] == num[m - i - 2];
    }
    DigitRunEndAt(s, i + 2, k);
  }

  /** A tail match after a newline-free name gives a `Shape`. */
  lemma ShapeFromTail(s: string, i: nat)
    requires 1 <= i && |s| >= 1 && s[0] == '往' && TailMatchesAt(s, i) && NoNewline(s[1..i])
    ensures Shape(s, s[1..i], s[i + 2..DigitRunEnd(s, i + 2)])
  {
    var k := DigitRunEnd(s, i + 2);
    var w := DirectionPayload(s[1..i], s[i + 2..k]);
    assert s[..k + 3] == s[..1] + s[1..i] + s[i..i + 2] + s[i + 2..k] + s[k..k + 3];
    assert s[..1] == "往";
    assert s[..|w|] == w;
  }

  lemma {:induction false} LazySearchSound(s: string, i: nat)
    requires 1 <= i <= |s| && s[0] == '往' && NoNewline(s[1..i])
    requires LazySearch(s, i).Some?
    ensures Shape(s, LazySearch(s, i).value.0, LazySearch(s, i).value.1)
    ensures i <= 1 + |LazySearch(s, i).value.0|
    ensures forall j :: i <= j < 1 + |LazySearch(s, i).value.0| ==> !TailMatchesAt(s, j)
    decreases |s| - i
  {
    if TailMatchesAt(s, i) {
      ShapeFromTail(s, i);
    } else {
      assert s[1..i + 1] == s[1..i] + [s[i]];
      LazySearchSound(s, i + 1);
    }
  }

  lemma {:induction false} LazySearchFinds(s: string, i: nat, name: string, num: string)
    requires Shape(s, name, num)
    requires 1 <= i <= 1 + |name|
    ensures LazySearch(s, i).Some?
    decreases 1 + |name| - i
  {
    ShapePositions(s, name, num);
    if !TailMatchesAt(s, i) {
      assert s[i] == name[i - 1];
      LazySearchFinds(s, i + 1, name, num);
    }
  }

  /** The model of the pattern agrees with its declarative reading: it
      matches with groups (name, num) exactly when `s` has that shape and no
      shorter name would do. */
  lemma MatchDirectionSpec(s: string, name: string, num: string)
    ensures MatchDirection(s) == Some((name, num)) <==> LazyShape(s, name, num)
  {
    if MatchDirection(s) == Some((name, num)) {
      MatchDirectionIsLazy(s);
    }
    if LazyShape(s, name, num) {
      ShapePositions(s, name, num);
      LazySearchFinds(s, 1, name, num);
      MatchDirectionIsLazy(s);
      var (n2, m2) := MatchDirection(s).value;
      ShapePositions(s, n2, m2);
      assert |n2| == |name|;
    }
  }

  lemma MatchDirectionIsLazy(s: string)
    requires MatchDirection(s).Some?
    ensures LazyShape(s, MatchDirection(s).value.0, MatchDirection(s).value.1)
  {
    assert s[1..1] == [];
    LazySearchSound(s, 1);
    var name := MatchDirection(s).value.0;
    forall name', num' | Shape(s, name', num') ensures |name| <= |name'| {
      ShapePositions(s, name', num');
    }
  }

  /** The pattern fails exactly when no prefix of `s` has the shape. */
  lemma MatchDirectionNone(s: string)
    ensures MatchDirection(s) == None <==> forall name, num :: !Shape(s, name, num)
  {
    if MatchDirection(s).Some? {
      MatchDirectionIsLazy(s);
    } else {
      forall name, num | Shape(s, name, num) ensures false {
        ShapePositions(s, name, num);
        LazySearchFinds(s, 1, name, num);
      }
    }
  }

  // ---------------------------------------------------------------------
  // Intent classification

  datatype Intent =
    | Help
    | ChooseDirection(directionName: string, routeNumber: string)
    | QueryRoute(routeNumber: string)
    | BadFormat

  /** The branch of `handle_message` taken for a message, tried in order. */
  function Classify(raw: string): Intent {
    var input := Strip(raw);
    if input == "說明" then Help
    else match MatchDirection(input)
      case Some((name, route)) => ChooseDirection(name, route)
      case None => if IsDigits(input) then QueryRoute(input) else BadFormat
  }

  /** The four outcomes and the order they are tried in. */
  lemma ClassifyPriority(raw: string)
    ensures Classify(raw) == Help <==> Strip(raw) == "說明"
    ensures Classify(raw).ChooseDirection? <==> Strip(raw) != "說明" && MatchDirection(Strip(raw)).Some?
    ensures Classify(raw).QueryRoute? <==> IsDigits(Strip(raw))
    ensures Classify(raw).QueryRoute? ==> Classify(raw).routeNumber == Strip(raw)
    ensures Classify(raw) == BadFormat <==>
              Strip(raw) != "說明" && MatchDirection(Strip(raw)).None? && !IsDigits(Strip(raw))
  {
    var input := Strip(raw);
    if IsDigits(input) {
      assert IsDigit(input[0]);
      assert input != "說明" by { assert !IsDigit('說'); }
      assert MatchDirection(input) == None by { assert !IsDigit('往'); }
    }
  }

  /** Direction 0 when the chosen name is the route's destination, 1 otherwise. */
  function DirectionFor(directionName: string, info: RouteInfo): int {
    if directionName == info.end then 0 else 1
  }

  /** The text of a direction button: the message it sends when tapped. */
  function DirectionPayload(stopName: string, routeNumber: string): string {
    "往" + stopName + "方向" + routeNumber + "號公車"
  }

  /** No name shorter than the stop name fits a button's text. */
  lemma PayloadNoShorterName(stopName: string, routeNumber: string, name': string, num': string)
    requires !Contains(stopName, "方向")
    requires Shape(DirectionPayload(stopName, routeNumber), name', num')
    ensures |stopName| <= |name'|
  {
    var p := DirectionPayload(stopName, routeNumber);
    ShapePositions(p, name', num');
    PayloadPieces(stopName, routeNumber);
    var j := |name'|;
    // 方向 at p[1 + j..3 + j] would lie inside the stop name, or straddle
    // its end, where the next character is 方 and not 向.
    assert j + 2 <= |stopName| ==> stopName[j..j + 2] == p[1 + j..3 + j];
    assert j + 2 <= |stopName| ==> OccursAt(stopName, j, "方向");
    assert p[1 + |stopName|] == '方';
  }

  /** The pattern recovers the stop name and route number from a button's text. */
  lemma PayloadMatches(stopName: string, routeNumber: string)
    requires IsDigits(routeNumber) && NoNewline(stopName) && !Contains(stopName, "方向")
    ensures MatchDirection(DirectionPayload(stopName, routeNumber)) == Some((stopName, routeNumber))
  {
    var p := DirectionPayload(stopName, routeNumber);
    assert Shape(p, stopName, routeNumber);
    forall name', num' | Shape(p, name', num') ensures |stopName| <= |name'| {
      PayloadNoShorterName(stopName, routeNumber, name', num');
    }
    MatchDirectionSpec(p, stopName, routeNumber);
  }

  /** A button's text is parsed back by the pattern branch into the stop
      name and route number it was built from, provided the stop name holds
      neither a newline nor "方向". */
  lemma PayloadRoundTrip(stopName: string, routeNumber: string)
    requires IsDigits(routeNumber) && NoNewline(stopName) && !Contains(stopName, "方向")
    ensures Classify(DirectionPayload(stopName, routeNumber)) == ChooseDirection(stopName, routeNumber)
  {
    PayloadMatches(stopName, routeNumber);
    PayloadStripped(stopName, routeNumber);
    PayloadNotHelp(stopName, routeNumber);
    ClassifyMatched(DirectionPayload(stopName, routeNumber), stopName, routeNumber);
  }

  lemma PayloadNotHelp(stopName: string, routeNumber: string)
    ensures DirectionPayload(stopName, routeNumber) != "說明"
  {
    var p := DirectionPayload(stopName, routeNumber);
    assert p[0] == '往' && "說明"[0] == '說';
  }

  lemma ClassifyMatched(raw: string, name: string, route: string)
    requires Strip(raw) != "說明" && MatchDirection(Strip(raw)) == Some((name, route))
    ensures Classify(raw) == ChooseDirection(name, route)
  {
  }

  lemma PayloadStripped(stopName: string, routeNumber: string)
    ensures Strip(DirectionPayload(stopName, routeNumber)) == DirectionPayload(stopName, routeNumber)
  {
    var p := DirectionPayload(stopName, routeNumber);
    assert p[0] == '往' && p[|p| - 1] == '車';
    StripUnchanged(p);
  }

  // ---------------------------------------------------------------------
  // The reply

  datatype Action = MessageAction(buttonLabel: string, text: string)

  /** A plain text message, or a two-button confirm template. */
  datatype Reply = TextReply(text: string) | ConfirmReply(altText: string, prompt: string, actions: seq<Action>)

  /** The outcomes of the network calls one message can cause: whether the
      token request raised, the route lookup made by the handler, the one
      `get_bus_info` makes again, and the arrival fetch. */
  datatype Network = Network(authRaises: bool, routeLookup: RouteResponse,
                             busInfoRouteLookup: RouteResponse, arrivals: ArrivalResponse)

  const HelpText := "請輸入公車號碼來查詢到站時間"
  const RequeryPrompt := "\n\n請重新輸入公車號碼以查詢最新資訊"
  const RouteFailureText := "無法獲取路線資訊\n請重新輸入公車號碼"
  const BadFormatText := "請輸入正確的公車號碼"
  const GenericErrorText := "發生錯誤，請稍後再試\n請重新輸入公車號碼"

  /** The direction-choice template for a route number. */
  function DirectionChoice(routeNumber: string, info: RouteInfo): Reply {
    ConfirmReply("請選擇方向", "請選擇" + routeNumber + "號公車方向",
                 [MessageAction("往" + info.end, DirectionPayload(info.end, routeNumber)),
                  MessageAction("往" + info.start, DirectionPayload(info.start, routeNumber))])
  }

  /** `handle_message`. The token request is outside every inner `try`, so
      when it raises the outer handler replies with the generic error. */
  function HandleMessage(raw: string, net: Network): Reply {
    match Classify(raw)
    case Help => TextReply(HelpText)
    case ChooseDirection(name, route) =>
      if net.authRaises then TextReply(GenericErrorText)
      else (match RouteInfoOf(net.routeLookup)
        case Some(info) =>
          TextReply(BusInfo(net.busInfoRouteLookup, net.arrivals, DirectionFor(name, info)) + RequeryPrompt)
        case None => TextReply(RouteFailureText))
    case QueryRoute(route) =>
      if net.authRaises then TextReply(GenericErrorText)
      else (match RouteInfoOf(net.routeLookup)
        case Some(info) => DirectionChoice(route, info)
        case None => TextReply(RouteFailureText))
    case BadFormat => TextReply(BadFormatText)
  }

  /** "說明" gets the help text, whatever the network would have done. */
  lemma HelpIgnoresNetwork(raw: string, net1: Network, net2: Network)
    requires Strip(raw) == "說明"
    ensures HandleMessage(raw, net1) == HandleMessage(raw, net2) == TextReply("請輸入公車號碼來查詢到站時間")
  {
  }

  /** A message of no recognised form gets the format error, whatever the network. */
  lemma BadFormatIgnoresNetwork(raw: string, net1: Network, net2: Network)
    requires Strip(raw) != "說明" && MatchDirection(Strip(raw)).None? && !IsDigits(Strip(raw))
    ensures HandleMessage(raw, net1) == HandleMessage(raw, net2) == TextReply("請輸入正確的公車號碼")
  {
    ClassifyPriority(raw);
  }

  /** "說明" gets the help text. */
  lemma HelpExample(net: Network)
    ensures HandleMessage("說明", net) == TextReply("請輸入公車號碼來查詢到站時間")
  {
    StripUnchanged("說明");
    HelpIgnoresNetwork("說明", net, net);
  }

  /** "abc" gets the format error. */
  lemma BadFormatExample(net: Network)
    ensures HandleMessage("abc", net) == TextReply("請輸入正確的公車號碼")
  {
    var s := "abc";
    assert s[0] == 'a' && s[|s| - 1] == 'c';
    StripUnchanged(s);
    UnrecognisedLead(s);
    BadFormatIgnoresNetwork(s, net, net);
  }

  /** A message whose first character is none of a digit, 往 and 說 is of no recognised form. */
  lemma UnrecognisedLead(s: string)
    requires |s| > 0 && !IsDigit(s[0]) && s[0] != '往' && s[0] != '說'
    ensures s != "說明" && MatchDirection(s).None? && !IsDigits(s)
  {
    assert "說明"[0] == '說';
  }

  /** A failed route lookup in either network-using branch gives the retry text. */
  lemma RouteLookupFailure(raw: string, net: Network)
    requires Classify(raw).ChooseDirection? || Classify(raw).QueryRoute?
    requires !net.authRaises && RouteInfoOf(net.routeLookup) == None
    ensures HandleMessage(raw, net) == TextReply("無法獲取路線資訊\n請重新輸入公車號碼")
  {
  }

  /** When the token request raises, both network-using branches give the
      generic error reply; the help and format-error replies never depend on it. */
  lemma AuthFailureReply(raw: string, net: Network)
    requires net.authRaises
    ensures Classify(raw).ChooseDirection? || Classify(raw).QueryRoute? ==>
              HandleMessage(raw, net) == TextReply("發生錯誤，請稍後再試\n請重新輸入公車號碼")
    ensures Classify(raw) == Help ==> HandleMessage(raw, net) == TextReply("請輸入公車號碼來查詢到站時間")
    ensures Classify(raw) == BadFormat ==> HandleMessage(raw, net) == TextReply("請輸入正確的公車號碼")
  {
  }

  /** A route number that resolves gets the confirm template: its prompt
      names the route, and its two buttons are labelled with the destination
      and the origin, in that order, each sending its direction text. */
  lemma DirectionChoiceReply(raw: string, net: Network)
    requires IsDigits(Strip(raw)) && !net.authRaises && RouteInfoOf(net.routeLookup).Some?
    ensures var info := RouteInfoOf(net.routeLookup).value;
            var route := Strip(raw);
            HandleMessage(raw, net) ==
              ConfirmReply("請選擇方向", "請選擇" + route + "號公車方向",
                           [MessageAction("往" + info.end, "往" + info.end + "方向" + route + "號公車"),
                            MessageAction("往" + info.start, "往" + info.start + "方向" + route + "號公車")])
  {
    ClassifyPriority(raw);
  }

  /** A route number that resolves gets the two buttons; tapping a button,
      with later lookups that find the same route, queries the direction the
      button names: 0 for the destination, 1 for the origin (when the two
      terminals differ). */
  lemma DirectionButtonsRoundTrip(raw: string, net: Network, later: Network)
    requires IsDigits(Strip(raw)) && !net.authRaises && RouteInfoOf(net.routeLookup).Some?
    requires !later.authRaises && RouteInfoOf(later.routeLookup) == RouteInfoOf(net.routeLookup)
    requires var info := RouteInfoOf(net.routeLookup).value;
             NoNewline(info.end) && !Contains(info.end, "方向") &&
             NoNewline(info.start) && !Contains(info.start, "方向") && info.start != info.end
    ensures var reply := HandleMessage(raw, net);
            reply.ConfirmReply? && |reply.actions| == 2 &&
            HandleMessage(reply.actions[0].text, later) ==
              TextReply(BusInfo(later.busInfoRouteLookup, later.arrivals, 0) + "\n\n請重新輸入公車號碼以查詢最新資訊") &&
            HandleMessage(reply.actions[1].text, later) ==
              TextReply(BusInfo(later.busInfoRouteLookup, later.arrivals, 1) + "\n\n請重新輸入公車號碼以查詢最新資訊")
  {
    ClassifyPriority(raw);
    var info := RouteInfoOf(net.routeLookup).value;
    PayloadRoundTrip(info.end, Strip(raw));
    PayloadRoundTrip(info.start, Strip(raw));
  }

  /** On a route whose two terminals carry the same name, both buttons query
      direction 0: direction 1 cannot be reached through the buttons. */
  lemma LoopRouteButtonsBothDirection0(raw: string, net: Network, later: Network)
    requires IsDigits(Strip(raw)) && !net.authRaises && RouteInfoOf(net.routeLookup).Some?
    requires !later.authRaises && RouteInfoOf(later.routeLookup) == RouteInfoOf(net.routeLookup)
    requires var info := RouteInfoOf(net.routeLookup).value;
             NoNewline(info.end) && !Contains(info.end, "方向") && info.start == info.end
    ensures var reply := HandleMessage(raw, net);
            reply.ConfirmReply? && |reply.actions| == 2 &&
            HandleMessage(reply.actions[0].text, later) == HandleMessage(reply.actions[1].text, later) ==
              TextReply(BusInfo(later.busInfoRouteLookup, later.arrivals, 0) + "\n\n請重新輸入公車號碼以查詢最新資訊")
  {
    ClassifyPriority(raw);
    var info := RouteInfoOf(net.routeLookup).value;
    PayloadRoundTrip(info.end, Strip(raw));
  }
}
