/** The string keys under which responses are correlated. */
module Keys {
  import opened Decimal
  import opened ClientState

  /** `str(n)` as text. */
  function Text(n: int): (t: string)
    ensures |t| == |Render(n)| && forall i | 0 <= i < |t| :: t[i] == Render(n)[i] as char
  {
    seq(|Render(n)|, i requires 0 <= i < |Render(n)| => Render(n)[i] as char)
  }

  /** `f"{event_name}_{req_id}"`. */
  function Key(name: string, req: int): string {
    name + "_" + Text(req)
  }

  lemma TextInjective(m: int, n: int)
    ensures Text(m) == Text(n) <==> m == n
  {
    if Text(m) == Text(n) {
      assert forall i | 0 <= i < |Text(m)| :: Text(m)[i] == Text(n)[i];
      assert Render(m) == Render(n);
      ParseIntOfRender(m);
      ParseIntOfRender(n);
    }
  }

  /** Where the last underscore of a key is: right in front of the number. */
  lemma LastUnderscore(name: string, req: int)
    ensures var key := Key(name, req); var u := |key| - |Text(req)| - 1;
            && u == |name| && key[u] == '_' && forall i | u < i < |key| :: key[i] != '_'
  {
    var key := Key(name, req);
    assert forall i | |name| < i < |key| :: key[i] == Text(req)[i - |name| - 1];
  }

  /** Different (event, request) pairs never share a key, whatever the event names contain
      and whatever the sign of the request id. */
  lemma KeyInjective(name1: string, req1: int, name2: string, req2: int)
    ensures Key(name1, req1) == Key(name2, req2) <==> name1 == name2 && req1 == req2
  {
    if Key(name1, req1) == Key(name2, req2) {
      LastUnderscore(name1, req1);
      LastUnderscore(name2, req2);
      var key := Key(name1, req1);
      assert |name1| == |name2|;
      assert name1 == key[..|name1|] && name2 == Key(name2, req2)[..|name1|];
      assert Text(req1) == key[|name1| + 1..] && Text(req2) == Key(name2, req2)[|name1| + 1..];
      TextInjective(req1, req2);
    }
  }

  function NameText(name: EventName): string {
    match name
    case Error => "error"
    case NextValidId => "next_valid_id"
    case CurrentTime => "current_time"
    case ContractDetails => "contract_details"
    case OrderStatus => "order_status"
    case OpenOrders => "open_orders"
    case Executions => "executions"
    case Portfolio => "portfolio"
    case Positions => "positions"
    case AccountSummary => "account_summary"
    case MarketData => "market_data"
    case HistoricalData => "historical_data"
    case HistoricalSchedule => "historical_schedule"
    case ManagedAccounts => "managed_accounts"
    case MatchingSymbols => "matching_symbols"
    case HeadTimestamp => "head_timestamp"
    case OptionChain => "option_chain"
    case NewsProviders => "news_providers"
    case ScannerParameters => "scanner_parameters"
    case Histogram => "histogram"
    case HistoricalTicks => "historical_ticks"
    case Pnl => "pnl"
    case FundamentalData => "fundamental_data"
    case CompletedOrders => "completed_orders"
  }

  lemma NamesDiffer(a: EventName, b: EventName)
    ensures NameText(a) == NameText(b) <==> a == b
  {
  }

  /** The key of a slot. */
  function SlotKey(slot: Slot): string {
    Key(NameText(slot.name), slot.req)
  }

  lemma SlotKeyInjective(s: Slot, t: Slot)
    ensures SlotKey(s) == SlotKey(t) <==> s == t
  {
    KeyInjective(NameText(s.name), s.req, NameText(t.name), t.req);
    NamesDiffer(s.name, t.name);
  }
}
