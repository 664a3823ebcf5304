/** `SetDefaultRouteAnnotations`: who owns the HAProxy timeout of the route, the operator or a human. */
module Routes {

  const HAPROXY_ANNO := "haproxy.router.openshift.io/timeout"
  const CINDER_ANNO := "api.cinder.openstack.org/timeout"

  type Annotations = map<string, string>

  function Digits(n: nat): (s: string) {
    if n < 10 then ['0' + n as char] else Digits(n / 10) + ['0' + (n % 10) as char]
  }

  /** A timeout in seconds, as text. */
  function Seconds(timeout: int): (s: string) {
    (if timeout < 0 then "-" + Digits(-timeout) else Digits(timeout)) + "s"
  }

  function Value(s: string): (n: nat)
    requires forall i :: 0 <= i < |s| ==> '0' <= s[i] <= '9'
  {
    if s == "" then 0 else 10 * Value(s[..|s| - 1]) + (s[|s| - 1] - '0') as nat
  }

  /** The digits of a number are its decimal digits. */
  lemma {:induction false} DigitsReadBack(n: nat)
    ensures Digits(n) != "" && forall i :: 0 <= i < |Digits(n)| ==> '0' <= Digits(n)[i] <= '9'
    ensures Value(Digits(n)) == n
  {
    var s := Digits(n);
    if n < 10 {
      assert s[..|s| - 1] == "";
    } else {
      DigitsReadBack(n / 10);
      assert s[..|s| - 1] == Digits(n / 10);
    }
  }

  /** A timeout is written as its decimal digits, with a sign if it is negative, followed by the unit of seconds. */
  lemma SecondsReadBack(timeout: int)
    ensures var s := Seconds(timeout);
            && |s| > 1 && s[|s| - 1] == 's'
            && (timeout < 0 <==> s[0] == '-')
            && var digits := s[(if timeout < 0 then 1 else 0)..|s| - 1];
            && (forall i :: 0 <= i < |digits| ==> '0' <= digits[i] <= '9')
            && Value(digits) == if timeout < 0 then -timeout else timeout
  {
    var n := if timeout < 0 then -timeout else timeout;
    var s := Seconds(timeout);
    DigitsReadBack(n);
    assert s[(if timeout < 0 then 1 else 0)..|s| - 1] == Digits(n);
  }

  /** Different timeouts have different texts. */
  lemma SecondsInjective(m: int, n: int)
    requires Seconds(m) == Seconds(n)
    ensures m == n
  {
    var a, b := if m < 0 then -m else m, if n < 0 then -n else n;
    DigitsReadBack(a);
    DigitsReadBack(b);
    var x, y := Seconds(m)[..|Seconds(m)| - 1], Seconds(n)[..|Seconds(n)| - 1];
    assert x == if m < 0 then "-" + Digits(a) else Digits(a);
    assert y == if n < 0 then "-" + Digits(b) else Digits(b);
    assert (m < 0 <==> x[0] == '-') && (n < 0 <==> y[0] == '-');
    assert m < 0 ==> x[1..] == Digits(a) && y[1..] == Digits(b);
  }

  /** A human set the HAProxy timeout: the flag is missing or says something else. */
  predicate HumanOwned(a: Annotations) {
    HAPROXY_ANNO in a && (CINDER_ANNO !in a || a[CINDER_ANNO] != a[HAPROXY_ANNO])
  }

  /** The annotations after a call. */
  function Defaulted(a: Annotations, timeout: int): (r: Annotations) {
    if HumanOwned(a) then a - {CINDER_ANNO}
    else a[CINDER_ANNO := Seconds(timeout)][HAPROXY_ANNO := Seconds(timeout)]
  }

  class Route {
    var annotations: Annotations

    constructor (a: Annotations)
      ensures annotations == a
    {
      annotations := a;
    }

    method SetDefaultRouteAnnotations(apiTimeout: int)
      modifies this
      ensures annotations == Defaulted(old(annotations), apiTimeout)
    {
      var okCinder, okHAProxy := CINDER_ANNO in annotations, HAPROXY_ANNO in annotations;
      if !okCinder && okHAProxy {
        assert annotations - {CINDER_ANNO} == annotations;
        return;
      }
      if okCinder && okHAProxy && annotations[CINDER_ANNO] != annotations[HAPROXY_ANNO] {
        annotations := annotations - {CINDER_ANNO};
        return;
      }
      var timeout := Seconds(apiTimeout);
      annotations := annotations[CINDER_ANNO := timeout];
      annotations := annotations[HAPROXY_ANNO := timeout];
    }
  }

  // ---------------------------------------------------------------- histories

  /** The operator calls, a human sets or removes an annotation. */
  datatype Event = Call(timeout: int) | Put(key: string, value: string) | Remove(key: string)

  function Step(a: Annotations, e: Event): (r: Annotations) {
    match e
    case Call(timeout) => Defaulted(a, timeout)
    case Put(key, value) => a[key := value]
    case Remove(key) => a - {key}
  }

  function After(a: Annotations, es: seq<Event>): (r: Annotations) {
    if es == [] then a else Step(After(a, es[..|es| - 1]), es[|es| - 1])
  }

  /** Only the HAProxy timeout is there, or both say the same. */
  predicate Owned(a: Annotations, timeout: int) {
    || (HAPROXY_ANNO in a && CINDER_ANNO !in a)
    || (HAPROXY_ANNO in a && CINDER_ANNO in a && a[HAPROXY_ANNO] == a[CINDER_ANNO] == Seconds(timeout))
  }

  /** The human keeps off the HAProxy timeout, and does not hand it back by setting the flag to `value`. */
  predicate LeavesAlone(e: Event, value: string) {
    && (e.Put? ==> e.key != HAPROXY_ANNO && !(e.key == CINDER_ANNO && e.value == value))
    && (e.Remove? ==> e.key != HAPROXY_ANNO)
  }

  predicate AllLeaveAlone(es: seq<Event>, value: string) {
    forall i :: 0 <= i < |es| ==> LeavesAlone(es[i], value)
  }

  /** A value that a human set survives every history in which the human leaves it alone. */
  lemma {:induction false} HumanValueSurvives(a: Annotations, es: seq<Event>)
    requires HumanOwned(a) && AllLeaveAlone(es, a[HAPROXY_ANNO])
    ensures HumanOwned(After(a, es)) && After(a, es)[HAPROXY_ANNO] == a[HAPROXY_ANNO]
  {
    if es != [] { HumanValueSurvives(a, es[..|es| - 1]); }
  }

  /** The three ways to hand the timeout back to the operator: to remove it, to set the flag to it, and to set it
      to the flag. */
  predicate HandsBack(a: Annotations, e: Event) {
    || e == Remove(HAPROXY_ANNO)
    || (HAPROXY_ANNO in a && e == Put(CINDER_ANNO, a[HAPROXY_ANNO]))
    || (CINDER_ANNO in a && e == Put(HAPROXY_ANNO, a[CINDER_ANNO]))
  }

  /** An event after a human-owned state makes the next call set the timeout if and only if it handed it back. */
  lemma HandedBackExactly(a: Annotations, e: Event, timeout: int)
    requires HumanOwned(a)
    ensures HumanOwned(Step(a, e)) <==> !HandsBack(a, e)
    ensures var r := Defaulted(Step(a, e), timeout);
            if HandsBack(a, e) then CINDER_ANNO in r && r[HAPROXY_ANNO] == Seconds(timeout)
            else CINDER_ANNO !in r && r[HAPROXY_ANNO] == Step(a, e)[HAPROXY_ANNO]
  {
  }

  predicate NeverHandsBack(a: Annotations, es: seq<Event>)
    decreases |es|
  {
    es == [] || (!HandsBack(a, es[0]) && NeverHandsBack(Step(a, es[0]), es[1..]))
  }

  predicate AlwaysHuman(a: Annotations, es: seq<Event>)
    decreases |es|
  {
    HumanOwned(a) && (es == [] || AlwaysHuman(Step(a, es[0]), es[1..]))
  }

  /** Over whole histories: the timeout stays with the human, whatever the calls, until it is handed back, and no
      longer. */
  lemma {:induction false} HumanUntilHandedBack(a: Annotations, es: seq<Event>)
    requires HumanOwned(a)
    ensures AlwaysHuman(a, es) <==> NeverHandsBack(a, es)
    decreases |es|
  {
    if es != [] {
      HandedBackExactly(a, es[0], 0);
      if !HandsBack(a, es[0]) {
        HumanUntilHandedBack(Step(a, es[0]), es[1..]);
      } else {
        assert !HumanOwned(Step(a, es[0]));
      }
    }
  }

  /** After every call of every history the timeout has one owner, and the call repeated changes nothing; the
      last call decides the timeout unless a human owns it. Other annotations are only changed by humans. */
  lemma OneOwner(a: Annotations, es: seq<Event>, timeout: int)
    ensures var before, r := After(a, es), After(a, es + [Call(timeout)]);
            && Owned(r, timeout)
            && After(a, es + [Call(timeout), Call(timeout)]) == r
            && (HAPROXY_ANNO in r && CINDER_ANNO in r <==> !HumanOwned(before))
            && (HumanOwned(before) ==> r[HAPROXY_ANNO] == before[HAPROXY_ANNO])
            && (forall k :: k != HAPROXY_ANNO && k != CINDER_ANNO ==>
                  (k in r <==> k in before) && (k in r ==> r[k] == before[k]))
  {
    var one, two := es + [Call(timeout)], es + [Call(timeout), Call(timeout)];
    assert one[..|one| - 1] == es && two[..|two| - 1] == one;
    var r := After(a, one);
    assert HumanOwned(r) ==> r - {CINDER_ANNO} == r;
  }

  predicate AllCalls(es: seq<Event>) {
    forall i :: 0 <= i < |es| ==> es[i].Call?
  }

  /** Any number of calls amounts to the last one. */
  lemma {:induction false} CallsCollapse(a: Annotations, es: seq<Event>)
    requires es != [] && AllCalls(es)
    ensures After(a, es) == Defaulted(a, es[|es| - 1].timeout)
  {
    var prev := es[..|es| - 1];
    if prev == [] {
      assert After(a, prev) == a;
    } else {
      CallsCollapse(a, prev);
      CallTwice(a, prev[|prev| - 1].timeout, es[|es| - 1].timeout);
    }
  }

  lemma CallTwice(a: Annotations, first: int, second: int)
    ensures Defaulted(Defaulted(a, first), second) == Defaulted(a, second)
  {
    var r := Defaulted(a, first);
    if HumanOwned(a) {
      assert r - {CINDER_ANNO} == r;
    } else {
      assert r[CINDER_ANNO := Seconds(second)][HAPROXY_ANNO := Seconds(second)]
          == a[CINDER_ANNO := Seconds(second)][HAPROXY_ANNO := Seconds(second)];
    }
  }
}
