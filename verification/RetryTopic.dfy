/**
  The names of the Kafka retry topics, the choice of a tier, and the round trip of a record
  through one: parked by the transport's `redeliver`, moved back by the re-inject consumer.
*/
module RetryTopic {
  import opened Helpers

  // ---- Decimal numerals --------------------------------------------------------

  predicate IsDigit(c: char) {
    '0' <= c <= '9'
  }

  predicate AllDigits(s: string) {
    forall i :: 0 <= i < |s| ==> IsDigit(s[i])
  }

  function Numeral(n: nat): string {
    if n < 10 then [('0' as int + n) as char] else Numeral(n / 10) + [('0' as int + n % 10) as char]
  }

  function ValueOf(s: string): nat
    requires AllDigits(s)
  {
    if s == "" then 0
    else ValueOf(s[..|s| - 1]) * 10 + (s[|s| - 1] as int - '0' as int)
  }

  lemma {:induction false} NumeralRoundTrip(n: nat)
    ensures Numeral(n) != "" && AllDigits(Numeral(n)) && ValueOf(Numeral(n)) == n
  {
    if n < 10 {
      assert Numeral(n)[..0] == "";
    } else {
      NumeralRoundTrip(n / 10);
      var s := Numeral(n);
      assert s[..|s| - 1] == Numeral(n / 10);
    }
  }

  // ---- Topic names -----------------------------------------------------------------

  const INFIX := ".retry."

  function RetryTopic(work: string, n: nat): string {
    work + INFIX + Numeral(n)
  }

  // The tiers are numbered in decimal.
  lemma NumeralIs(n: nat, d: nat)
    requires d < 10
    ensures Numeral(d) == ["0123456789"[d]] && (n > 0 ==> Numeral(10 * n + d) == Numeral(n) + Numeral(d))
  {
    assert (10 * n + d) / 10 == n && (10 * n + d) % 10 == d;
  }

  // Where the longest run of digits at the end of `s` starts.
  function DigitStart(s: string): (k: nat)
    ensures k <= |s| && AllDigits(s[k..])
    ensures k > 0 ==> !IsDigit(s[k - 1])
  {
    if s == "" || !IsDigit(s[|s| - 1]) then |s| else
      var k := DigitStart(s[..|s| - 1]);
      assert s[k..] == s[..|s| - 1][k..] + [s[|s| - 1]];
      k
  }

  // `$` also matches before one final newline.
  function BeforeFinalNewline(s: string): string {
    if s != "" && s[|s| - 1] == '\n' then s[..|s| - 1] else s
  }

  datatype Parsed = Parsed(work: string, n: nat)

  // `^(?P<work>.+)\.retry\.(?P<n>[0-9]+)$`: the digits end the name and the infix stands right
  // before them, so it is the last one however often the work topic contains it; `.` does not
  // match a newline.
  function Parse(topic: string): Option<Parsed> {
    var s := BeforeFinalNewline(topic);
    var k := DigitStart(s);
    if k < |s| && k > |INFIX| && s[k - |INFIX|..k] == INFIX && '\n' !in s[..k - |INFIX|]
    then Some(Parsed(s[..k - |INFIX|], ValueOf(s[k..])))
    else None
  }

  lemma DigitsFrom(s: string, j: nat)
    requires j <= |s| && AllDigits(s[j..])
    ensures forall i :: j <= i < |s| ==> IsDigit(s[i])
  {
    forall i | j <= i < |s| ensures IsDigit(s[i]) { assert s[j..][i - j] == s[i]; }
  }

  lemma DigitStartIs(s: string, k: nat)
    requires 0 < k <= |s| && AllDigits(s[k..]) && !IsDigit(s[k - 1])
    ensures DigitStart(s) == k
  {
    var j := DigitStart(s);
    DigitsFrom(s, k);
    DigitsFrom(s, j);
  }

  // Reading a printed name gives back the work topic and the tier, exactly for the work
  // topics that are not empty and hold no newline.
  lemma ParseRetryTopic(work: string, n: nat)
    ensures Parse(RetryTopic(work, n)) == Some(Parsed(work, n)) <==> work != "" && '\n' !in work
  {
    NumeralRoundTrip(n);
    var t := RetryTopic(work, n);
    var k := |work| + |INFIX|;
    assert t[k..] == Numeral(n) && t[k - |INFIX|..k] == INFIX && t[..k - |INFIX|] == work;
    assert t[k - 1] == '.';
    assert t[|t| - 1] == Numeral(n)[|Numeral(n)| - 1];
    assert BeforeFinalNewline(t) == t;
    DigitStartIs(t, k);
  }

  // ---- Tiers -------------------------------------------------------------------------

  ghost predicate ValidTiers(tiers: seq<int>) {
    && (forall i :: 0 <= i < |tiers| ==> tiers[i] > 0)
    && (forall i, j :: 0 <= i < j < |tiers| ==> tiers[i] < tiers[j])
  }

  /** `_validated_tiers`: positive and strictly ascending, or refused. */
  method ValidatedTiers(tiers: seq<int>) returns (accepted: Option<seq<int>>)
    ensures accepted == (if ValidTiers(tiers) then Some(tiers) else None)
  {
    var out: seq<int> := [];
    for i := 0 to |tiers|
      invariant out == tiers[..i] && ValidTiers(out)
    {
      if tiers[i] <= 0 || (out != [] && tiers[i] <= out[|out| - 1]) {
        assert !ValidTiers(tiers);
        return None;
      }
      out := out + [tiers[i]];
    }
    assert tiers[..|tiers|] == tiers;
    accepted := Some(out);
  }

  /** `publish_delayed`: the tier (counted from 1) a requested delay is parked on. */
  method TierForDelay(tiers: seq<int>, delay: int) returns (n: Option<nat>)
    requires ValidTiers(tiers)
    ensures n == None <==> delay < 0 || forall i :: 0 <= i < |tiers| ==> tiers[i] < delay
    ensures n.Some? ==> 1 <= n.value <= |tiers| && tiers[n.value - 1] >= delay
    ensures n.Some? ==> forall i :: 0 <= i < |tiers| && tiers[i] >= delay ==> tiers[n.value - 1] <= tiers[i]
  {
    if delay < 0 { return None; }
    for i := 0 to |tiers|
      invariant forall j :: 0 <= j < i ==> tiers[j] < delay
    {
      if tiers[i] >= delay { return Some(i + 1); }
    }
    n := None;
  }

  // `_tier_ms`: the delay of the tier a topic names.
  function TierMs(tiers: seq<int>, topic: string): Option<int> {
    match Parse(topic)
    case None => None
    case Some(p) => if 1 <= p.n <= |tiers| then Some(tiers[p.n - 1]) else None
  }

  // The names the re-inject consumer subscribes to.
  function Subscribed(workTopics: seq<string>, tiers: seq<int>): set<string> {
    set w, n | w in workTopics && 1 <= n <= |tiers| :: RetryTopic(w, n)
  }

  lemma EveryTierIsSubscribed(workTopics: seq<string>, tiers: seq<int>, work: string, n: nat)
    requires work in workTopics && 1 <= n <= |tiers|
    ensures RetryTopic(work, n) in Subscribed(workTopics, tiers)
  {
  }

  // A record of a subscribed topic always has a tier: the branch for one that has none is
  // never taken.
  lemma SubscribedHasTier(workTopics: seq<string>, tiers: seq<int>, topic: string)
    requires topic in Subscribed(workTopics, tiers)
    requires forall w :: w in workTopics ==> w != "" && '\n' !in w
    ensures TierMs(tiers, topic).Some? && TierMs(tiers, topic).value in tiers
  {
    var w, n :| w in workTopics && 1 <= n <= |tiers| && topic == RetryTopic(w, n);
    ParseRetryTopic(w, n);
  }

  // ---- A record parked and moved back --------------------------------------------------

  // A record value: an envelope with its `attempts` member and the rest of it, or anything
  // else. `attempts` is None when the envelope carries no usable integer.
  datatype Body = Envelope(attempts: Option<int>, rest: string) | Opaque(text: string)

  datatype Header = Header(name: string, value: string)

  datatype Record = Record(topic: string, value: Body, key: Option<string>, headers: seq<Header>)

  const ATTEMPTS := "bq-attempts"
  const DELAY := "bq-delay"
  const ORIGINAL_TOPIC := "bq-original-topic"

  predicate Has(headers: seq<Header>, name: string) {
    exists i :: 0 <= i < |headers| && headers[i].name == name
  }

  function Without(headers: seq<Header>, names: set<string>): seq<Header> {
    if headers == [] then []
    else (if headers[0].name in names then [] else [headers[0]]) + Without(headers[1..], names)
  }

  // The first header of that name, as `_header` reads it.
  function Get(headers: seq<Header>, name: string): Option<string> {
    if headers == [] then None
    else if headers[0].name == name then Some(headers[0].value)
    else Get(headers[1..], name)
  }

  // Extra headers never displace one that is there.
  function WithExtra(headers: seq<Header>, extra: seq<Header>): seq<Header>
    decreases |extra|
  {
    if extra == [] then headers
    else if Has(headers, extra[0].name) then WithExtra(headers, extra[1..])
    else WithExtra(headers + [extra[0]], extra[1..])
  }

  function AttemptsBefore(body: Body): nat {
    if body.Envelope? && body.attempts.Some? && body.attempts.value > 0 then body.attempts.value else 0
  }

  function WithAttempts(body: Body, attempts: nat): Body {
    if body.Envelope? then body.(attempts := Some(attempts)) else body
  }

  function TierNumber(attemptsBefore: nat, tiers: nat): nat
    requires tiers > 0
  {
    (if attemptsBefore < tiers - 1 then attemptsBefore else tiers - 1) + 1
  }

  // `redeliver`: the record parked for a consumed one with `body` as the value to retry; the
  // attempts are counted on the consumed value. `projected` are the header view of the
  // new body, `trace` the trace-context headers of the consumed record.
  function Parked(queue: string, consumed: Body, body: Body, key: Option<string>, tiers: seq<int>,
                  projected: seq<Header>, trace: seq<Header>): Record
    requires tiers != [] && ValidTiers(tiers)
  {
    var before := AttemptsBefore(consumed);
    var n := TierNumber(before, |tiers|);
    var kept := Without(Without(projected, {DELAY, ORIGINAL_TOPIC}), {ATTEMPTS});
    Record(RetryTopic(queue, n), WithAttempts(body, before + 1), key,
           WithExtra(kept + [Header(ATTEMPTS, Numeral(before + 1)), Header(DELAY, Numeral(tiers[n - 1])),
                             Header(ORIGINAL_TOPIC, queue)], trace))
  }

  // `_reinject`: the record written to the work topic.
  function Reinjected(r: Record): Record {
    var named := Get(r.headers, ORIGINAL_TOPIC);
    var target :=
      if named.Some? && named.value != "" then named.value
      else match Parse(r.topic) case Some(p) => p.work case None => r.topic;
    Record(target, r.value, r.key, Without(r.headers, {DELAY, ORIGINAL_TOPIC}))
  }

  lemma {:induction false} WithoutHas(headers: seq<Header>, names: set<string>, name: string)
    ensures Has(Without(headers, names), name) <==> Has(headers, name) && name !in names
    ensures name !in names ==> Get(Without(headers, names), name) == Get(headers, name)
  {
    if headers != [] {
      var first, rest := headers[0], headers[1..];
      var kept := Without(rest, names);
      WithoutHas(rest, names, name);
      assert headers == [first] + rest;
      HasFirst(first, rest, name);
      if first.name in names {
        assert Without(headers, names) == kept;
      } else {
        assert Without(headers, names) == [first] + kept;
        HasFirst(first, kept, name);
      }
    }
  }

  lemma HasFirst(first: Header, rest: seq<Header>, name: string)
    ensures Has([first] + rest, name) <==> first.name == name || Has(rest, name)
    ensures Get([first] + rest, name) == if first.name == name then Some(first.value) else Get(rest, name)
  {
    HasSplit([first], rest, name);
    assert [first][0].name == first.name;
    assert ([first] + rest)[0] == first && ([first] + rest)[1..] == rest;
  }

  lemma HasSplit(a: seq<Header>, b: seq<Header>, name: string)
    ensures Has(a + b, name) <==> Has(a, name) || Has(b, name)
  {
    if Has(a, name) {
      var i :| 0 <= i < |a| && a[i].name == name;
      assert (a + b)[i].name == name;
    }
    if Has(b, name) {
      var i :| 0 <= i < |b| && b[i].name == name;
      assert (a + b)[|a| + i].name == name;
    }
  }

  lemma {:induction false} GetSplit(a: seq<Header>, b: seq<Header>, name: string)
    ensures Get(a + b, name) == if Has(a, name) then Get(a, name) else Get(b, name)
    ensures Get(a, name).Some? <==> Has(a, name)
  {
    if a == [] {
      assert a + b == b;
    } else {
      assert (a + b)[1..] == a[1..] + b && a == [a[0]] + a[1..];
      GetSplit(a[1..], b, name);
      HasSplit([a[0]], a[1..], name);
      assert Has([a[0]], name) <==> a[0].name == name by {
        if a[0].name == name { assert [a[0]][0].name == name; }
      }
    }
  }

  lemma {:induction false} WithExtraKeeps(headers: seq<Header>, extra: seq<Header>, name: string)
    ensures Has(WithExtra(headers, extra), name) <==> Has(headers, name) || Has(extra, name)
    ensures Has(headers, name) ==> Get(WithExtra(headers, extra), name) == Get(headers, name)
    ensures !Has(headers, name) ==> Get(WithExtra(headers, extra), name) == Get(extra, name)
    decreases |extra|
  {
    GetSplit(headers, [], name);
    if extra != [] {
      var one := [extra[0]];
      assert extra == one + extra[1..];
      HasSplit(one, extra[1..], name);
      GetSplit(one, extra[1..], name);
      assert Has(one, name) <==> extra[0].name == name by {
        if extra[0].name == name { assert one[0].name == name; }
      }
      if Has(headers, extra[0].name) {
        WithExtraKeeps(headers, extra[1..], name);
      } else {
        WithExtraKeeps(headers + one, extra[1..], name);
        HasSplit(headers, one, name);
        GetSplit(headers, one, name);
      }
    }
  }

  // A header of the parked record: its own three, else that of the projection, else a trace header.
  function ParkedValue(queue: string, before: nat, tiers: seq<int>, projected: seq<Header>, trace: seq<Header>,
                       name: string): Option<string>
    requires tiers != [] && ValidTiers(tiers)
  {
    if name == ATTEMPTS then Some(Numeral(before + 1))
    else if name == DELAY then Some(Numeral(tiers[TierNumber(before, |tiers|) - 1]))
    else if name == ORIGINAL_TOPIC then Some(queue)
    else if Has(projected, name) then Get(projected, name) else Get(trace, name)
  }

  lemma ParkedHeader(queue: string, consumed: Body, body: Body, key: Option<string>, tiers: seq<int>,
                     projected: seq<Header>, trace: seq<Header>, name: string)
    requires tiers != [] && ValidTiers(tiers)
    ensures Get(Parked(queue, consumed, body, key, tiers, projected, trace).headers, name)
         == ParkedValue(queue, AttemptsBefore(consumed), tiers, projected, trace, name)
  {
    var before := AttemptsBefore(consumed);
    var kept := Without(Without(projected, {DELAY, ORIGINAL_TOPIC}), {ATTEMPTS});
    var added := [Header(ATTEMPTS, Numeral(before + 1)),
                  Header(DELAY, Numeral(tiers[TierNumber(before, |tiers|) - 1])), Header(ORIGINAL_TOPIC, queue)];
    HopHeader(projected, kept, added, trace, name);
    GetOfThree(added, name);
  }

  lemma GetOfThree(headers: seq<Header>, name: string)
    requires |headers| == 3 && headers[0].name == ATTEMPTS && headers[1].name == DELAY && headers[2].name ==
      ORIGINAL_TOPIC
    ensures name == ATTEMPTS ==> Get(headers, name) == Some(headers[0].value)
    ensures name == DELAY ==> Get(headers, name) == Some(headers[1].value)
    ensures name == ORIGINAL_TOPIC ==> Get(headers, name) == Some(headers[2].value)
  {
    assert Get(headers[1..], name) == if name == DELAY then Some(headers[1].value) else Get(headers[1..][1..], name);
    assert headers[1..][1..][0] == headers[2];
  }

  // Parked by `redeliver` and moved back by the re-inject consumer, a record returns to the
  // topic it was consumed from with the same key, one more attempt than it was consumed with in
  // the body and in the header, neither tier header, and the trace headers that the projection does not own.
  lemma RetryHop(queue: string, consumed: Body, body: Body, key: Option<string>, tiers: seq<int>,
                 projected: seq<Header>, trace: seq<Header>, name: string)
    requires tiers != [] && ValidTiers(tiers) && queue != ""
    ensures var back := Reinjected(Parked(queue, consumed, body, key, tiers, projected, trace));
      && back.topic == queue && back.key == key
      && back.value == WithAttempts(body, AttemptsBefore(consumed) + 1)
      && Get(back.headers, ATTEMPTS) == Some(Numeral(AttemptsBefore(consumed) + 1))
      && !Has(back.headers, DELAY) && !Has(back.headers, ORIGINAL_TOPIC)
      && (name !in {ATTEMPTS, DELAY, ORIGINAL_TOPIC} ==>
          Get(back.headers, name) == if Has(projected, name) then Get(projected, name) else Get(trace, name))
  {
    var p := Parked(queue, consumed, body, key, tiers, projected, trace);
    ParkedHeader(queue, consumed, body, key, tiers, projected, trace, ORIGINAL_TOPIC);
    ParkedHeader(queue, consumed, body, key, tiers, projected, trace, ATTEMPTS);
    ParkedHeader(queue, consumed, body, key, tiers, projected, trace, name);
    WithoutHas(p.headers, {DELAY, ORIGINAL_TOPIC}, ATTEMPTS);
    WithoutHas(p.headers, {DELAY, ORIGINAL_TOPIC}, DELAY);
    WithoutHas(p.headers, {DELAY, ORIGINAL_TOPIC}, ORIGINAL_TOPIC);
    WithoutHas(p.headers, {DELAY, ORIGINAL_TOPIC}, name);
  }

  // A record is parked on the tier that follows the attempts it has had, and on the last one when
  // they are used up; the topic is that tier's and the header carries that tier's delay.
  lemma ParkedOnItsTier(queue: string, consumed: Body, body: Body, key: Option<string>, tiers: seq<int>,
                        projected: seq<Header>, trace: seq<Header>)
    requires tiers != [] && ValidTiers(tiers) && queue != "" && '\n' !in queue
    ensures var p, before := Parked(queue, consumed, body, key, tiers, projected, trace), AttemptsBefore(consumed);
      OnTier(p, queue, tiers, if before < |tiers| then before + 1 else |tiers|)
  {
    ParkedHeader(queue, consumed, body, key, tiers, projected, trace, DELAY);
    ParkedHeader(queue, consumed, body, key, tiers, projected, trace, ORIGINAL_TOPIC);
    TopicIsOnTier(queue, tiers, TierNumber(AttemptsBefore(consumed), |tiers|));
  }

  // It is one of the topics the re-inject consumer of that work topic subscribes to.
  lemma ParkedIsSubscribed(queue: string, consumed: Body, body: Body, key: Option<string>, tiers: seq<int>,
                           projected: seq<Header>, trace: seq<Header>, workTopics: seq<string>)
    requires tiers != [] && ValidTiers(tiers) && queue in workTopics
    ensures Parked(queue, consumed, body, key, tiers, projected, trace).topic in Subscribed(workTopics, tiers)
  {
    EveryTierIsSubscribed(workTopics, tiers, queue, TierNumber(AttemptsBefore(consumed), |tiers|));
  }

  // The record lies on the topic of that tier, and its headers say so.
  predicate OnTier(p: Record, queue: string, tiers: seq<int>, n: nat)
    requires ValidTiers(tiers)
  {
    && 1 <= n <= |tiers| && TopicOnTier(p.topic, queue, tiers, n)
    && Get(p.headers, DELAY) == Some(Numeral(tiers[n - 1])) && Get(p.headers, ORIGINAL_TOPIC) == Some(queue)
  }

  predicate TopicOnTier(topic: string, queue: string, tiers: seq<int>, n: nat)
    requires 1 <= n <= |tiers|
  {
    Parse(topic) == Some(Parsed(queue, n)) && TierMs(tiers, topic) == Some(tiers[n - 1])
  }

  lemma TopicIsOnTier(queue: string, tiers: seq<int>, n: nat)
    requires queue != "" && '\n' !in queue && 1 <= n <= |tiers|
    ensures TopicOnTier(RetryTopic(queue, n), queue, tiers, n)
  {
    ParseRetryTopic(queue, n);
  }

  lemma HasThree(headers: seq<Header>, name: string)
    requires |headers| == 3
    ensures Has(headers, name) <==> name == headers[0].name || name == headers[1].name || name == headers[2].name
  {
  }

  lemma HopHeader(projected: seq<Header>, kept: seq<Header>, added: seq<Header>, trace: seq<Header>, name: string)
    requires kept == Without(Without(projected, {DELAY, ORIGINAL_TOPIC}), {ATTEMPTS})
    requires |added| == 3 && added[0].name == ATTEMPTS && added[1].name == DELAY && added[2].name == ORIGINAL_TOPIC
    ensures Get(WithExtra(kept + added, trace), name) ==
      if name in {ATTEMPTS, DELAY, ORIGINAL_TOPIC} then Get(added, name)
      else if Has(projected, name) then Get(projected, name) else Get(trace, name)
  {
    WithoutHas(projected, {DELAY, ORIGINAL_TOPIC}, name);
    WithoutHas(Without(projected, {DELAY, ORIGINAL_TOPIC}), {ATTEMPTS}, name);
    HasSplit(kept, added, name);
    GetSplit(kept, added, name);
    HasThree(added, name);
    WithExtraKeeps(kept + added, trace, name);
  }
}
