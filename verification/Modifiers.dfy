/** What an option's text asks of a knob: `>v` and `<v` only raise and only lower the value
    (tuned/plugins/base.py). */
module Modifiers {
  import opened Text
  import opened PluginModel

  /** A request `>v` or `<v`. */
  predicate HasModifier(request: Value) {
    |request| > 1 && (request[0] == '<' || request[0] == '>')
  }

  predicate Comparable(a: Value, b: Value) {
    ParseInt(a, 10).Some? && ParseInt(b, 10).Some?
  }

  predicate Above(a: Value, b: Value)
    requires Comparable(a, b)
  {
    ParseInt(a, 10).value > ParseInt(b, 10).value
  }

  /** What a request makes of a knob: a plain request is written, `>v` writes v only to raise the value and `<v` only
      to lower it; what cannot be compared is written as it stands. */
  ghost predicate Carries(request: Value, was: Value, now: Value) {
    if !HasModifier(request) || !Comparable(request[1..], was) then now == request
    else if request[0] == '>' then now == if Above(request[1..], was) then request[1..] else was
    else now == if Above(was, request[1..]) then request[1..] else was
  }

  /** The value to write carries the request out; nothing is written when the value need not change. */
  lemma ProcessCarries(request: Value, was: Value)
    ensures match ProcessModifiers(request, Some(was))
            case Some(v) => Carries(request, was, v)
            case None => Carries(request, was, was)
  {
    hide ParseInt;
  }

  /** A raised number is the larger of the two, a lowered one the smaller. */
  lemma CarriesBounds(request: Value, was: Value, now: Value)
    requires Carries(request, was, now) && HasModifier(request) && Comparable(request[1..], was)
    ensures var v, w, n := ParseInt(request[1..], 10).value, ParseInt(was, 10).value, ParseInt(now, 10);
            n == Some(if request[0] == '>' then (if v > w then v else w) else (if v < w then v else w))
  {
    hide ParseInt;
  }
}
