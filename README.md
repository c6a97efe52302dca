# Bus-arrival chatbot: a Dafny model of its query and formatting core

The bot answers bus-arrival questions for one city. A user sends a route
number. The bot looks the route up and offers two buttons, one per
direction of travel. A tap sends back a direction message. The bot then
fetches the live estimated arrivals and replies with a report: one line
pair per stop, showing "arriving soon" or whole minutes.

This project models that logic in `app.py`:

- `BusData.process_bus_data`, the arrival report formatter;
- the route-info extraction in `get_route_info`;
- the control flow of `get_bus_info`;
- the message classification, the direction choice and the button texts of
  `handle_message`;
- `Auth.get_auth_header`.

Every HTTP response is an input to the model.

Modules:

- `Wrappers`: `Option`, for JSON fields that may be absent.
- `Text`: models of `str.strip()` over a subset of ASCII whitespace (space, tab, LF, CR, VT, FF) and of `str.isdigit()` over ASCII digits, decimal
  rendering of a number with its inverse `ParseNat`, and `str.join`.
- `Auth`: the client-credentials form.
- `BusData`: `RouteInfo`, `ArrivalRecord`, the two response types, and
  these members:
  - `Report`, the reference definition of the formatter;
  - `ProcessBusData`, the formatter's loop, proved equal to `Report`;
  - `RouteInfoOf`, the route-info extraction;
  - `BusInfo`, the arrival query.
- `Handler`: these members:
  - `MatchDirection`, a model of `re.match(r'往(.*?)方向(\d+)號公車', s)`.
    It is proved equal to a declarative reading (`LazyShape`): the shape must
    sit at the start, the group-1 name is the shortest one possible, it
    cannot contain a newline, and the `\d+` run is the maximal one;
  - `Classify`, the four-way dispatch;
  - `DirectionFor`, the direction bit;
  - `DirectionPayload`, the button texts;
  - `HandleMessage`, the reply to one message.

Two details of the code that the model keeps:

- `get_bus_info` looks the route up again by itself. So a direction message
  uses two route lookups (the handler's and `get_bus_info`'s) plus the
  arrival fetch. `Handler.Network` carries all three, plus whether the token
  request raised.
- A record whose `Direction` field is missing is never kept. So `direction`
  is an `Option<int>`, not a plain 0/1.

One consequence of the code, proved in `LoopRouteButtonsBothDirection0`:
some routes have the same name at both ends. On such a route both buttons
send a message that the handler maps to direction 0, so direction 1 cannot
be reached through the buttons.

## Model

| member | source | states |
|---|---|---|
| `Auth.AuthHeader` | app.py:61-67 | the form has exactly the four keys content-type, grant_type, client_id and client_secret, with the fixed form type and grant, and the application id and key |
| `Auth.AuthHeaderInjective` | app.py:61-67 | equal forms come only from equal credentials |
| `Text.Strip` | app.py:178 | the stripped input is a slice of the message with only whitespace cut off on either side, and it has no whitespace at either end |
| `Text.StripIdempotent` | app.py:178 | stripping twice is the same as stripping once |
| `Text.NatToString` | app.py:131-132 | the minutes are rendered as decimal digits, with a leading '0' exactly when the number is 0, and 0 rendered as "0" |
| `Text.IsDigits` | app.py:225 | defines `str.isdigit()` over ASCII: at least one character, and every character a digit |
| `Text.Join` | app.py:139 | defines `sep.join(parts)`: the parts in order with `sep` between neighbours, and "" for no parts |
| `Text.ParseNatToString` | app.py:131-132 | reading the rendered minutes back as a decimal number gives the number |
| `BusData.ArrivalText` | app.py:128-132 | defines the arrival text of one stop: "即將到站" under 90 seconds, otherwise estimate // 60 followed by "分鐘" |
| `BusData.Keeps` | app.py:122-123 | defines which records the formatter keeps: estimate present and Direction equal to the requested direction |
| `BusData.StopBlock` | app.py:124-134 | defines the block of one kept record: "站名: {name}\n預估到站時間: {arrival}\n", with "未知站名" for a missing name |
| `BusData.StopsInfo` | app.py:120-134 | defines the `stops_info` list: the blocks of the kept records, in input order |
| `BusData.DirectionName` | app.py:136 | defines the direction name: the destination for direction 0, the origin otherwise |
| `BusData.Report` | app.py:116-141 | defines the formatter's reply: "查無此路線資料" for no records, the header and joined blocks when some record is kept, "目前往{name}方向無公車即將到站" otherwise |
| `BusData.ProcessBusData` | app.py:116-141 | the loop that appends one block per kept record and then joins them produces exactly `Report` |
| `BusData.ArrivalTextSoonIff` | app.py:128-132 | a stop shows "即將到站" exactly when its estimate is under 90 seconds |
| `BusData.ArrivalTextMinutes` | app.py:130-132 | from 90 seconds on, the text is decimal digits without a leading zero followed by "分鐘"; the number m they denote satisfies m*60 <= estimate < m*60+60 (floor division) |
| `BusData.ArrivalTextExamples` | app.py:128-132 | 89 s gives "即將到站", 90 s gives "1分鐘", 125 s gives "2分鐘" |
| `BusData.StopsInfoConcat` | app.py:120-134 | the block list of a concatenation is the concatenation of the block lists: blocks appear in input order, and each depends only on its own record |
| `BusData.StopsInfoSingle` | app.py:122-134 | one record gives its "站名: …\n預估到站時間: …\n" block if its estimate is present and its direction matches, and nothing otherwise |
| `BusData.StopsInfoEmptyIff` | app.py:121-123 | there is no block exactly when no record has an estimate and the requested direction |
| `BusData.StopsInfoMembers` | app.py:121-134 | every block belongs to a kept record, and every kept record has its block |
| `BusData.ReportEmptyInput` | app.py:117-118 | an empty record list gives "查無此路線資料", whatever the route and direction |
| `BusData.ReportNoneKept` | app.py:136-141 | a non-empty list with no kept record gives exactly "目前往{name}方向無公車即將到站" |
| `BusData.ReportSomeKept` | app.py:136-139 | with a kept record, the reply is "往{name}方向的公車：\n\n" followed by the blocks joined with "\n" |
| `BusData.ReportIgnoresUnkept` | app.py:121-123 | inserting a record that is not kept, anywhere in a non-empty list, leaves the reply unchanged |
| `BusData.DirectionNameExample` | app.py:136 | for route A to B, direction 0 uses the destination B and direction 1 the origin A |
| `BusData.ReportExample` | app.py:124-139 | stop X at 45 s toward Y gives the header for Y, then the block "站名: X\n預估到站時間: 即將到站\n" |
| `BusData.UnknownStopName` | app.py:124-134 | every kept record without a stop name renders as "站名: 未知站名\n預估到站時間: {arrival}\n" |
| `BusData.RouteInfoOf` | app.py:84-98 | defines `get_route_info` on a lookup response: the first route's names with placeholders for a 200 response with routes, none otherwise |
| `BusData.RouteInfoOfSpec` | app.py:84-98 | route info is found exactly for a 200 response with a non-empty list: the first route's departure and destination names, or "未知起點"/"未知終點" when a name is absent; an exception gives none |
| `BusData.RouteInfoOfFirstOnly` | app.py:90-94 | routes after the first do not affect the result |
| `BusData.BusInfo` | app.py:100-114 | defines `get_bus_info` on its own route lookup and the arrival response: route failure, exception, non-200 status, or the formatter's reply |
| `BusData.BusInfoWithoutRoute` | app.py:100-103 | without route info the reply is "無法獲取路線資訊" and does not depend on the arrival response |
| `BusData.BusInfoWithRoute` | app.py:105-114 | with route info: an exception gives "錯誤: " and its message, a non-200 status gives "無法獲取資料", and status 200 gives the formatter's reply |
| `BusData.BusInfoRouteFailureIff` | app.py:100-114 | the reply is "無法獲取路線資訊" exactly when the route lookup failed; no other path produces that text |
| `Handler.TailMatchesAt` | app.py:195 | defines where `方向(\d+)號公車` matches: "方向", then a non-empty maximal digit run, then "號公車" |
| `Handler.LazySearch` | app.py:195 | defines the lazy group 1: the end positions tried from left to right, stopping at a newline |
| `Handler.MatchDirection` | app.py:195-199 | defines `re.match` of the pattern: anchored at the first character "往", giving groups 1 and 2 |
| `Handler.Classify` | app.py:178-225 | defines the dispatch on the stripped message: help, direction choice, route query or format error |
| `Handler.DirectionFor` | app.py:208 | defines the direction bit: 0 when the chosen name is the destination, 1 otherwise |
| `Handler.DirectionPayload` | app.py:241-245 | defines a button's text: "往{stop}方向{route}號公車" |
| `Handler.DirectionChoice` | app.py:234-249 | defines the confirm template: alt text, prompt naming the route, destination button then origin button |
| `Handler.HandleMessage` | app.py:175-285 | defines the reply to one message from its class and the network outcomes, including the generic error when the token request raises |
| `Handler.DigitRunEnd` | app.py:195 | the end of the maximal run of digits from a position, as the greedy `\d+` takes it |
| `Handler.MatchDirectionSpec` | app.py:195-199 | the pattern gives groups (name, number) exactly when the message starts with "往" + name + "方向" + number + "號公車", the name has no newline, the number is digits, and no shorter name fits |
| `Handler.MatchDirectionNone` | app.py:195-196 | the pattern fails exactly when there is no such prefix for any name and number |
| `Handler.ClassifyPriority` | app.py:178-225 | the input is stripped. "說明" is help. Otherwise a pattern match is a direction choice. Otherwise all digits is a route query, with the stripped input as its number. Anything else is a format error |
| `Handler.PayloadRoundTrip` | app.py:195-199 | a button text with a digit route and a stop name free of "方向" and newlines classifies back into that stop name and route number |
| `Handler.HelpIgnoresNetwork` | app.py:184-193 | "說明" gets "請輸入公車號碼來查詢到站時間", whatever the network does |
| `Handler.HelpExample` | app.py:184-186 | the literal message "說明" gets the help text |
| `Handler.BadFormatIgnoresNetwork` | app.py:265-267 | an unrecognised message gets "請輸入正確的公車號碼", whatever the network does |
| `Handler.BadFormatExample` | app.py:265-267 | "abc" gets the format-error reply |
| `Handler.RouteLookupFailure` | app.py:205-264 | in both the direction branch and the route-number branch, a failed route lookup gives "無法獲取路線資訊\n請重新輸入公車號碼" |
| `Handler.AuthFailureReply` | app.py:202-203 | when the token request raises, both network branches give "發生錯誤，請稍後再試\n請重新輸入公車號碼"; help and format-error replies are unaffected |
| `Handler.DirectionChoiceReply` | app.py:225-255 | a route number that resolves gets the template "請選擇方向". Its prompt names the route. Its destination button comes first, then its origin button, each labelled "往{stop}" and sending "往{stop}方向{n}號公車" |
| `Handler.DirectionButtonsRoundTrip` | app.py:195-247 | tapping the destination button queries direction 0. Tapping the origin button queries direction 1. Both hold when later lookups find the same route and its terminals differ. The reply is the arrival query plus the re-query prompt |
| `Handler.LoopRouteButtonsBothDirection0` | app.py:208 | when both terminals have the same name, both buttons query direction 0 |

## Left out

- Flask routes, the `/callback` webhook and signature checking (app.py:144-158): HTTP plumbing.
- The LINE Messaging API calls and the follow-event greeting (app.py:161-172). The model produces the reply as a `Reply` value. A failure of `reply_message` itself, which the outer handler would also turn into the generic error, is not modelled.
- The HTTP requests, their URLs and the bearer-token header built from the token response (app.py:76-87, 203, 228): network and JSON decoding. Responses are inputs. The route number appears only in the URLs, so the model does not tie a response to the route number asked for.
- Environment loading, the start-up check and `app.run` (app.py:27-46, 288-290): configuration and process start.
- `print` logging throughout: it has no effect on any reply.
- Python's Unicode semantics:
  - `Text.Strip`: removes only space, tab, LF, CR, VT and FF. Python also strips \x1c–\x1f and Unicode whitespace such as \u3000;
  - `Text.IsDigits` and `Handler.DigitRunEnd`: accept only ASCII digits, whereas `\d` accepts every Unicode decimal digit and `str.isdigit()` accepts even more, such as '²' and '①', which `\d` rejects. So in the source a message "²" passes app.py:225 and gets buttons "往…方向²號公車", which app.py:195 never matches, so a tap gets "請輸入正確的公車號碼". The model uses one ASCII digit set for both and cannot show this.
- JSON `null`: a field present with value `null` is modelled as absent. That is exact for `EstimateTime` and `Direction`, where `null` and absence behave alike. It is not exact elsewhere:
  - `StopName: null`: `.get` is called on `None` and raises, so `get_bus_info` would reply "錯誤: " followed by the AttributeError's message (app.py:124, 112-114);
  - `Zh_tw: null` and null route names: Python prints "None" where the model uses the placeholder.
- Malformed bodies: a truthy response body that is not a list of objects (a non-empty object, a number, `true`) would raise inside the `try` blocks. A falsy body (`null`, `{}`, `""`, `0`, `false`) raises nothing: app.py:90 and app.py:117 treat it like an empty list, and the model reaches that outcome through an empty `routes`/`records`. Records and routes are typed values here, so that exception path is reached only through the `RouteRaised`/`ArrivalRaised` inputs.
- Exception messages: `str(e)` is abstracted to the message string carried by `ArrivalRaised`.
