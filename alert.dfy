/** Alerts for the deep-crawl service: a per-platform rate limit (one alert
    per platform every five minutes) in front of the push service. The
    module dict of last alert times is the state of an `Alerter`; the
    clock, the configured key and the push service's reply are
    parameters. */
module Alert {
  import opened Common
  import opened Json

  /** `_RATE_LIMIT_SEC` */
  const RateLimitSec: real := 300.0

  function LastOf(last: map<string, real>, p: string): real {
    if p in last then last[p] else 0.0
  }

  /** `_should_rate_limit`: skipped when the last alert of the platform
      (0 when none) is less than five minutes old; otherwise the time is
      recorded. Returns the verdict and the new table. */
  function Gate(last: map<string, real>, p: string, now: real): (r: (bool, map<string, real>))
    ensures r.0 <==> now - LastOf(last, p) < RateLimitSec
    ensures r.0 ==> r.1 == last
    ensures !r.0 ==> r.1 == last[p := now]
  {
    if now - LastOf(last, p) < RateLimitSec then (true, last) else (false, last[p := now])
  }

  /** An alert that went through blocks every further alert of the same
      platform for the next five minutes, and the one after that goes
      through. */
  lemma OncePerWindow(last: map<string, real>, p: string, t1: real, t2: real)
    requires !Gate(last, p, t1).0
    ensures t1 <= t2 < t1 + RateLimitSec ==> Gate(Gate(last, p, t1).1, p, t2).0
    ensures t2 >= t1 + RateLimitSec ==> !Gate(Gate(last, p, t1).1, p, t2).0
  {
  }

  /** Platforms are independent: the gate of one platform neither reads nor
      writes another's entry. */
  lemma PlatformsIndependent(last: map<string, real>, p: string, q: string, now: real, t: real)
    requires p != q
    ensures LastOf(Gate(last, p, now).1, q) == LastOf(last, q)
    ensures Gate(Gate(last, p, now).1, q, t).0 == Gate(last, q, t).0
  {
  }

  /** Python `x == 0`: also true for 0.0 and False. */
  predicate EqualsZero(j: Json) {
    j == JInt(0) || j == JFloat(0.0) || j == JBool(false)
  }

  /** The table after a platform alert: the gate runs only when a key is
      configured and the platform is not empty. */
  function AfterAlert(key: string, last: map<string, real>, platform: string, now: real): map<string, real> {
    if key != "" && platform != "" then Gate(last, platform, now).1 else last
  }

  /** The push service accepted the message: its answer has `code` 0. */
  predicate Acknowledged(reply: Option<Dict>) {
    reply.Some? && "code" in reply.value && EqualsZero(reply.value["code"])
  }

  /** `alert_cookie_expired`'s title. */
  function CookieExpiredTitle(platform: string): string { "MindSpider " + platform + " Cookie过期" }

  /** `alert_circuit_open`'s title. */
  function CircuitOpenTitle(platform: string): string { "MindSpider " + platform + " 熔断" }

  /** `alert_cookie_expired`'s body, with the login console link built from
      the configured port (as text) and token. */
  function CookieExpiredContent(platform: string, port: string, token: string): string {
    "## 平台 `" + platform + "` Cookie 已过期\n\n"
    + "深层采集服务已暂停该平台的爬取任务。\n\n"
    + "请点击下方链接扫码重新登录：\n\n"
    + "[登录控制台](http://YOUR_SERVER:" + port + "/login/" + platform + "?token=" + token + ")\n\n"
    + "---\n"
    + "*MindSpider Deep Crawl Service*"
  }

  /** `alert_circuit_open`'s body. */
  function CircuitOpenContent(platform: string, reason: string): string {
    "## 平台 `" + platform + "` 熔断器已触发\n\n"
    + "**原因:** " + reason + "\n\n"
    + "熔断器将在 30 分钟后自动重置。"
    + "如需手动排查，请检查平台状态。\n\n"
    + "---\n"
    + "*MindSpider Deep Crawl Service*"
  }

  class Alerter {
    /** `_last_alert_ts` */
    var last: map<string, real>
    /** `settings.SERVERCHAN_KEY` */
    const key: string

    constructor(serverKey: string)
      ensures last == map[] && key == serverKey
    {
      key := serverKey;
      last := map[];
    }

    /** `_should_rate_limit` */
    method ShouldRateLimit(p: string, now: real) returns (limited: bool)
      modifies this
      ensures (limited, last) == Gate(old(last), p, now)
    {
      var prev := LastOf(last, p);
      if now - prev < RateLimitSec {
        return true;
      }
      last := last[p := now];
      limited := false;
    }

    /** `send_alert`: false without a key (the limiter untouched), false when
        rate-limited, else whether the push service answered code 0.
        `reply` is the service's answer, None when the call raised. */
    method SendAlert(title: string, content: string, platform: Option<string>, now: real, reply: Option<Dict>)
      returns (sent: bool)
      modifies this
      ensures key == "" ==> !sent && last == old(last)
      ensures key != "" && (platform.None? || platform.value == "") ==> last == old(last)
      ensures key != "" && platform.Some? && platform.value != "" ==> last == Gate(old(last), platform.value, now).1
      ensures sent <==> (
        key != "" &&
        (platform.None? || platform.value == "" || !Gate(old(last), platform.value, now).0) &&
        Acknowledged(reply))
    {
      if key == "" {
        return false;
      }
      if platform.Some? && platform.value != "" {
        var limited := ShouldRateLimit(platform.value, now);
        if limited {
          return false;
        }
      }
      sent := Acknowledged(reply);
    }

    /** `alert_cookie_expired`: `send_alert` with the platform as the
        rate-limit key; `port` and `token` are the login console settings. */
    method AlertCookieExpired(platform: string, port: string, token: string, now: real, reply: Option<Dict>)
      returns (sent: bool)
      modifies this
      ensures last == AfterAlert(key, old(last), platform, now)
      ensures sent <==> key != "" && (platform == "" || !Gate(old(last), platform, now).0) && Acknowledged(reply)
    {
      sent := SendAlert(CookieExpiredTitle(platform), CookieExpiredContent(platform, port, token), Some(platform), now, reply);
    }

    /** `alert_circuit_open`: `send_alert` with the platform as the
        rate-limit key. */
    method AlertCircuitOpen(platform: string, reason: string, now: real, reply: Option<Dict>) returns (sent: bool)
      modifies this
      ensures last == AfterAlert(key, old(last), platform, now)
      ensures sent <==> key != "" && (platform == "" || !Gate(old(last), platform, now).0) && Acknowledged(reply)
    {
      sent := SendAlert(CircuitOpenTitle(platform), CircuitOpenContent(platform, reason), Some(platform), now, reply);
    }
  }
}
