/** The idempotency key of a request: which requests share one. */
module GatewayKeys {
  import opened Text
  import opened Store
  import opened Gateway

  predicate NoColon(s: string) { ':' !in s }

  lemma FrontSplits(a: string, x: string, b: string, y: string)
    requires NoColon(a) && NoColon(b) && a + ":" + x == b + ":" + y
    ensures a == b && x == y
  {
    var s := a + ":" + x;
    assert s[|a|] == ':' && s[|b|] == ':';
    assert forall i :: 0 <= i < |a| ==> s[i] == a[i] && s[i] != ':';
    assert forall i :: 0 <= i < |b| ==> s[i] == b[i] && s[i] != ':';
    assert |a| == |b|;
    assert s[..|a|] == a && s[|a| + 1..] == x && s[..|b|] == b && s[|b| + 1..] == y;
  }

  lemma BackSplits(x: string, a: string, y: string, b: string)
    requires NoColon(a) && NoColon(b) && x + ":" + a == y + ":" + b
    ensures a == b && x == y
  {
    var s := x + ":" + a;
    assert s[|x|] == ':' && s[|y|] == ':';
    assert forall i :: |x| < i < |s| ==> s[i] == a[i - |x| - 1] && s[i] != ':';
    assert forall i :: |y| < i < |s| ==> s[i] == b[i - |y| - 1] && s[i] != ':';
    assert |x| == |y|;
    assert s[..|x|] == x && s[|x| + 1..] == a && s[..|y|] == y && s[|y| + 1..] == b;
  }

  lemma KeyParts(r: Request)
    ensures IdempotencyKey(r) == r.runId + ":" + (r.stepId + ":" + (r.spec.name + ":" + r.requestHash))
  {
  }

  /** Requests share a key exactly if run, step, tool and hash of the arguments are all the same, for any tool name, as
      long as no colon occurs in run, step or hash. Drawn identifiers and hexadecimal hashes have none. */
  lemma KeysAreDistinct(r: Request, q: Request)
    requires NoColon(r.runId) && NoColon(r.stepId) && NoColon(r.requestHash)
    requires NoColon(q.runId) && NoColon(q.stepId) && NoColon(q.requestHash)
    ensures IdempotencyKey(r) == IdempotencyKey(q) <==>
            r.runId == q.runId && r.stepId == q.stepId && r.spec.name == q.spec.name && r.requestHash == q.requestHash
  {
    KeyParts(r);
    KeyParts(q);
    if IdempotencyKey(r) == IdempotencyKey(q) {
      var rest, rest' := r.spec.name + ":" + r.requestHash, q.spec.name + ":" + q.requestHash;
      FrontSplits(r.runId, r.stepId + ":" + rest, q.runId, q.stepId + ":" + rest');
      FrontSplits(r.stepId, rest, q.stepId, rest');
      BackSplits(r.spec.name, r.requestHash, q.spec.name, q.requestHash);
    }
  }

  /** With a colon in the step the key confuses two requests of different runs. */
  lemma ColonsAreConfused(r: Request, run: Id, middle: Id, step: Id)
    ensures IdempotencyKey(r.(runId := run, stepId := middle + ":" + step)) == IdempotencyKey(r.(runId := run + ":" + middle, stepId := step))
  {
    var tail := r.spec.name + ":" + r.requestHash;
    KeyParts(r.(runId := run, stepId := middle + ":" + step));
    KeyParts(r.(runId := run + ":" + middle, stepId := step));
    assert run + ":" + ((middle + ":" + step) + ":" + tail) == (run + ":" + middle) + ":" + (step + ":" + tail);
  }
}
