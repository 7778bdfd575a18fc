/** GenerateDailySummary of pkg/api/notification.go: a fixed sentence for a
    quiet day, otherwise a header with the alert count, one bullet line per
    alert and a closing piece of advice. */
module Notification {
  import opened Model
  import opened Strings

  const QuietDay: string := "今日您关注的股票表现平稳，无重大异动。"
  const HeaderOpening: string := "📊 今日股票异动总结 ("
  const HeaderClosing: string := "条异动)\n\n"
  const Advice: string := "\n💡 建议：请结合市场整体情况和个人风险承受能力做出投资决策。"

  /** The header, with the count written in decimal. */
  function Header(count: nat): (r: string)
    ensures HasPrefix(r, HeaderOpening)
  {
    HeaderOpening + NatToString(count) + HeaderClosing
  }

  /** One alert's line. */
  function Bullet(alert: AlertEvent): string
  {
    "• " + alert.symbol + ": " + alert.message + "\n"
  }

  /** The bullet lines of the alerts, in order. */
  function Bullets(alerts: seq<AlertEvent>): string
    decreases |alerts|
  {
    if |alerts| == 0 then "" else Bullets(alerts[..|alerts| - 1]) + Bullet(alerts[|alerts| - 1])
  }

  /** The summary text; the user it is for does not enter into it. */
  function DailySummary(alerts: seq<AlertEvent>): string
  {
    if |alerts| == 0 then QuietDay else Header(|alerts|) + Bullets(alerts) + Advice
  }

  /** `b` sits right after `a` in any text that starts with `a + b`. */
  lemma {:induction false} SliceAfterPrefix(r: string, a: string, b: string)
    requires |a| + |b| <= |r| && r[..|a| + |b|] == a + b
    ensures r[|a|..|a| + |b|] == b
  {
    forall k | 0 <= k < |b|
      ensures r[|a|..|a| + |b|][k] == b[k]
    {
      assert r[|a| + k] == r[..|a| + |b|][|a| + k];
    }
  }

  /** A non-empty summary opens with the header and closes with the
      advice. */
  lemma {:induction false} SummaryFrame(alerts: seq<AlertEvent>)
    requires |alerts| > 0
    ensures HasPrefix(DailySummary(alerts), Header(|alerts|))
    ensures HasSuffix(DailySummary(alerts), Advice)
  {
    var h := Header(|alerts|);
    var b := Bullets(alerts);
    var r := DailySummary(alerts);
    assert r == h + b + Advice;
    assert r[..|h|] == h;
    assert r[|r| - |Advice|..] == Advice;
  }

  /** The quiet-day sentence is the summary exactly when there are no
      alerts: it does not open like the header. */
  lemma {:induction false} QuietExactlyWithoutAlerts(alerts: seq<AlertEvent>)
    ensures DailySummary(alerts) == QuietDay <==> |alerts| == 0
  {
    if |alerts| > 0 {
      var r := DailySummary(alerts);
      SummaryFrame(alerts);
      assert r[0] == Header(|alerts|)[0] == HeaderOpening[0];
      assert QuietDay[0] != HeaderOpening[0];
    }
  }

  /** The bullets of two lists are the bullets of the first, then of the
      second. */
  lemma {:induction false} BulletsAppend(xs: seq<AlertEvent>, ys: seq<AlertEvent>)
    ensures Bullets(xs + ys) == Bullets(xs) + Bullets(ys)
    decreases |ys|
  {
    if |ys| == 0 {
      assert xs + ys == xs;
    } else {
      var zs := xs + ys;
      var ys' := ys[..|ys| - 1];
      assert zs[..|zs| - 1] == xs + ys';
      assert zs[|zs| - 1] == ys[|ys| - 1];
      BulletsAppend(xs, ys');
      assert Bullets(zs) == Bullets(xs) + Bullets(ys') + Bullet(ys[|ys| - 1]);
      AppendAssoc(Bullets(xs), Bullets(ys'), Bullet(ys[|ys| - 1]));
    }
  }

  /** The bullets of one alert are its line. */
  lemma BulletsOfOne(a: AlertEvent)
    ensures Bullets([a]) == Bullet(a)
  {
    assert [a][..0] == [];
  }

  /** Each alert has its line, between the lines of the alerts before it
      and those of the alerts after it. */
  lemma {:induction false} BulletAt(alerts: seq<AlertEvent>, i: nat)
    requires i < |alerts|
    ensures Bullets(alerts) == Bullets(alerts[..i]) + Bullet(alerts[i]) + Bullets(alerts[i + 1..])
  {
    var pre := alerts[..i];
    var post := alerts[i + 1..];
    assert alerts == pre + [alerts[i]] + post;
    BulletsAppend(pre + [alerts[i]], post);
    BulletsAppend(pre, [alerts[i]]);
    BulletsOfOne(alerts[i]);
  }

  /** The count in the header reads back as the number of alerts. */
  lemma {:induction false} HeaderCountReadsBack(alerts: seq<AlertEvent>)
    requires |alerts| > 0
    ensures var digits := DailySummary(alerts)[|HeaderOpening|..|HeaderOpening| + |NatToString(|alerts|)|];
      AllDigits(digits) && DigitsValue(digits) == |alerts|
  {
    var r := DailySummary(alerts);
    var n := NatToString(|alerts|);
    var h := Header(|alerts|);
    SummaryFrame(alerts);
    assert r[..|h|][..|HeaderOpening| + |n|] == HeaderOpening + n;
    assert r[..|HeaderOpening| + |n|] == HeaderOpening + n;
    SliceAfterPrefix(r, HeaderOpening, n);
    DigitsValueOfNatToString(|alerts|);
  }

  /** GenerateDailySummary. */
  method GenerateDailySummary(userId: string, alerts: seq<AlertEvent>) returns (summary: string)
    ensures summary == DailySummary(alerts)
  {
    if |alerts| == 0 {
      return QuietDay;
    }
    summary := Header(|alerts|);
    for i := 0 to |alerts|
      invariant summary == Header(|alerts|) + Bullets(alerts[..i])
    {
      assert alerts[..i + 1][..i] == alerts[..i];
      assert Bullets(alerts[..i + 1]) == Bullets(alerts[..i]) + Bullet(alerts[i]);
      AppendAssoc(Header(|alerts|), Bullets(alerts[..i]), Bullet(alerts[i]));
      summary := summary + Bullet(alerts[i]);
    }
    assert alerts[..|alerts|] == alerts;
    summary := summary + Advice;
  }
}
