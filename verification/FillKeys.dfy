/** Whose fills a tracking key counts: it names the account, the strategy and the order, and no two of them alike. */
module FillKeys {
  import opened Text
  import opened Domain
  import opened LiveFills

  /** A date written as digits only, or with dashes. */
  predicate DateText(date: string) {
    || (|date| == 8 && forall i :: 0 <= i < 8 ==> IsDigit(date[i]))
    || (|date| == 10 && date[4] == '-' && date[7] == '-' && !IsSpace(date[0]) && !IsSpace(date[9]))
  }

  /** The fill date is the date a timestamp starts with, whatever follows. */
  lemma FillDateIsTheDate(date: string, time: string)
    requires DateText(date)
    ensures FillDate(date + time) == date
  {
    hide TrimRight;
    assert TrimLeft(date + time) == date + time;
    TrimRightStops(date, time);
    var t := date + TrimRight(time);
    assert t[..|date|] == date && forall i :: 0 <= i < |date| ==> t[i] == date[i];
  }

  /** What names the order of an event: the client's id; or the order's id, with the time of the signal or else the date; or
      the trade's id, with instrument and date. */
  datatype Identity =
    | ByClient(client: string)
    | BySignal(order: string, signalTimeMs: int)
    | ByDate(order: string, date: string)
    | ByTrade(trade: string, instrument: string, date: string)
    | Nameless

  function IdentityOf(e: OrderEvent): Identity {
    if e.clientOrderId !in {"", e.orderId} then ByClient(e.clientOrderId)
    else if e.orderId != "" then
      if e.signalTimeMs > 0 then BySignal(e.orderId, e.signalTimeMs) else ByDate(e.orderId, FillDate(e.timestamp))
    else if e.sourceOrderId != "" then ByTrade(e.sourceOrderId, e.instrument, FillDate(e.timestamp))
    else Nameless
  }

  /** No part of the event's name contains the separator of the parts. */
  predicate PlainNames(e: OrderEvent) {
    '|' !in e.accountId && '|' !in e.strategyId && '|' !in e.clientOrderId && '|' !in e.orderId
    && '|' !in e.sourceOrderId && '|' !in e.instrument && '|' !in FillDate(e.timestamp)
  }

  /** Parts joined by the separator. */
  function Bars(parts: seq<string>): string
    requires parts != []
  {
    var last := |parts| - 1;
    if last == 0 then parts[0] else Bars(parts[..last]) + "|" + parts[last]
  }

  predicate Plain(parts: seq<string>) {
    forall part :: part in parts ==> '|' !in part
  }

  lemma MorePartsHaveABar(p: seq<string>)
    requires |p| > 1
    ensures '|' in Bars(p)
  {
    assert Bars(p)[|Bars(p[..|p| - 1])|] == '|';
  }

  lemma {:induction false} BarsTellApart(p: seq<string>, q: seq<string>)
    requires p != [] && q != [] && Plain(p) && Plain(q) && Bars(p) == Bars(q)
    ensures p == q
    decreases |p|
  {
    var i, j := |p| - 1, |q| - 1;
    assert p == p[..i] + [p[i]] && q == q[..j] + [q[j]];
    if i > 0 && j > 0 {
      SplitsAlike(Bars(p[..i]), p[i], Bars(q[..j]), q[j], '|');
      BarsTellApart(p[..i], q[..j]);
    } else {
      if i > 0 {
        MorePartsHaveABar(p);
      }
      if j > 0 {
        MorePartsHaveABar(q);
      }
    }
  }

  /** Attachments have the same key exactly if strategy and account are the same. */
  lemma AttachmentKeysTellApart(strategyId: string, accountId: string, other: string, account: string)
    requires ':' !in accountId && ':' !in account
    ensures AttachmentKey(strategyId, accountId) == AttachmentKey(other, account)
       <==> strategyId == other && accountId == account
  {
    var s, t := strategyId + ":", other + ":";
    assert AttachmentKey(strategyId, accountId) == s + [':'] + accountId;
    assert AttachmentKey(other, account) == t + [':'] + account;
    if AttachmentKey(strategyId, accountId) == AttachmentKey(other, account) {
      SplitsAlike(s, accountId, t, account, ':');
      assert s[..|strategyId|] == strategyId && t[..|strategyId|] == other;
    }
  }

  /** The parts of a tracking key. */
  function KeyParts(e: OrderEvent): seq<string>
    requires !IdentityOf(e).Nameless?
  {
    match IdentityOf(e)
    case ByClient(client) => ["client:" + e.accountId, e.strategyId, client]
    case BySignal(order, signal) => ["order-signal:" + e.accountId, e.strategyId, order, Decimal(e.signalTimeMs)]
    case ByDate(order, date) => ["order-date:" + e.accountId, e.strategyId, date, order]
    case ByTrade(trade, instrument, date) => ["trade:" + e.accountId, e.strategyId, trade, instrument, date]
  }

  lemma BarsOf(a: string, b: string, c: string, d: string, e: string)
    ensures Bars([a, b, c]) == a + "|" + b + "|" + c
    ensures Bars([a, b, c, d]) == a + "|" + b + "|" + c + "|" + d
    ensures Bars([a, b, c, d, e]) == a + "|" + b + "|" + c + "|" + d + "|" + e
  {
    assert Bars([a]) == a && [a, b][..1] == [a] && [a, b, c][..2] == [a, b];
    assert Bars([a, b]) == a + "|" + b;
    assert [a, b, c, d][..3] == [a, b, c] && [a, b, c, d, e][..4] == [a, b, c, d];
  }

  lemma KeyIsItsParts(e: OrderEvent)
    ensures TrackingKey(e) == if IdentityOf(e).Nameless? then "" else Bars(KeyParts(e))
  {
    hide FillDate, Decimal, Bars;
    var owner := e.accountId + "|" + e.strategyId + "|";
    if !IdentityOf(e).Nameless? {
      var parts := KeyParts(e);
      BarsOf(parts[0], parts[1], parts[2], if |parts| > 3 then parts[3] else "", if |parts| > 4 then parts[4] else "");
      assert |parts| == 3 ==> parts == [parts[0], parts[1], parts[2]];
      Regroup("client:", e.accountId, e.strategyId);
      Regroup("order-signal:", e.accountId, e.strategyId);
      Regroup("order-date:", e.accountId, e.strategyId);
      Regroup("trade:", e.accountId, e.strategyId);
    }
  }

  lemma Regroup(kind: string, accountId: string, strategyId: string)
    ensures kind + (accountId + "|" + strategyId + "|") == (kind + accountId) + "|" + strategyId + "|"
  {
  }

  lemma PartsArePlain(e: OrderEvent)
    requires PlainNames(e) && !IdentityOf(e).Nameless?
    ensures Plain(KeyParts(e))
  {
    hide FillDate;
    assert '|' !in "client:" && '|' !in "order-signal:" && '|' !in "order-date:" && '|' !in "trade:";
  }

  lemma KindsTellApart(a: string, b: string)
    ensures "order-signal:" + a != "order-date:" + b
    ensures forall kind: string :: kind + a == kind + b ==> a == b
  {
    assert ("order-signal:" + a)[6] == 's' && ("order-date:" + b)[6] == 'd';
    forall kind: string | kind + a == kind + b ensures a == b {
      assert (kind + a)[|kind|..] == a && (kind + b)[|kind|..] == b;
    }
  }

  /** Fills are counted under one key exactly if they are of one account, one strategy and one order. */
  lemma KeysTellOrdersApart(e: OrderEvent, f: OrderEvent)
    requires PlainNames(e) && PlainNames(f) && !IdentityOf(e).Nameless?
    ensures TrackingKey(e) == TrackingKey(f)
       <==> IdentityOf(e) == IdentityOf(f) && e.accountId == f.accountId && e.strategyId == f.strategyId
  {
    hide TrackingKey, FillDate, Decimal, Bars, Plain;
    KeyIsItsParts(e);
    KeyIsItsParts(f);
    KeysAreNotEmpty(e);
    if TrackingKey(e) == TrackingKey(f) {
      PartsArePlain(e);
      PartsArePlain(f);
      BarsTellApart(KeyParts(e), KeyParts(f));
      KindsTellApart(e.accountId, f.accountId);
      KindsTellApart(f.accountId, e.accountId);
      if e.signalTimeMs > 0 && f.signalTimeMs > 0 && Decimal(e.signalTimeMs) == Decimal(f.signalTimeMs) {
        DecimalInjective(e.signalTimeMs, f.signalTimeMs);
      }
    }
  }

  lemma KeysAreNotEmpty(e: OrderEvent)
    requires !IdentityOf(e).Nameless?
    ensures Bars(KeyParts(e)) != ""
  {
    hide FillDate, Decimal;
  }
}
