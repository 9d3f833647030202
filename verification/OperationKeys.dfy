/** Idempotency keys of business operations (src/core/types.py `generate_operation_key`). */
module OperationKeys {
  import opened ExecutionTypes

  predicate Writable(a: PendingAction) {
    a in {Refund, ReturnRequest, ReturnAddress}
  }

  function Prefix(a: PendingAction): string
    requires Writable(a)
  {
    match a
    case Refund => "oprefund"
    case ReturnRequest => "opreturn"
    case ReturnAddress => "opaddr"
  }

  function OperationKey(a: PendingAction, tenantId: string, orderId: string, requestId: string): string
    requires Writable(a)
  {
    Prefix(a) + (":" + (tenantId + (":" + (orderId + (":" + requestId)))))
  }

  /** The keys, spelled out; nothing else has one. */
  lemma KeyFormat(tenantId: string, orderId: string, requestId: string)
    ensures OperationKey(Refund, tenantId, orderId, requestId)
         == "oprefund:" + tenantId + ":" + orderId + ":" + requestId
    ensures OperationKey(ReturnRequest, tenantId, orderId, requestId)
         == "opreturn:" + tenantId + ":" + orderId + ":" + requestId
    ensures OperationKey(ReturnAddress, tenantId, orderId, requestId)
         == "opaddr:" + tenantId + ":" + orderId + ":" + requestId
    ensures forall a :: Writable(a) <==> a in {Refund, ReturnRequest, ReturnAddress}
  {
    var tail := ":" + (tenantId + (":" + (orderId + (":" + requestId))));
    forall p: string
      ensures p + tail == p + ":" + tenantId + ":" + orderId + ":" + requestId
    {
      assert (p + ":") + tenantId == p + (":" + tenantId);
    }
    assert "oprefund" + ":" == "oprefund:" && "opreturn" + ":" == "opreturn:" && "opaddr" + ":" == "opaddr:";
  }

  lemma HeadIsNoColon(a: string)
    requires ':' !in a
    ensures a != "" ==> a[0] != ':'
  {
  }

  /** The part before the first colon decides the split. */
  lemma {:induction false} FirstColonSplits(a: string, b: string, x: string, y: string)
    requires ':' !in a && ':' !in b && a + (":" + x) == b + (":" + y)
    ensures a == b && x == y
    decreases |a|
  {
    var s, t := a + (":" + x), b + (":" + y);
    HeadIsNoColon(a);
    HeadIsNoColon(b);
    assert s[0] == if a == "" then ':' else a[0];
    assert t[0] == if b == "" then ':' else b[0];
    if a != "" && b != "" {
      assert s[1..] == a[1..] + (":" + x) && t[1..] == b[1..] + (":" + y);
      FirstColonSplits(a[1..], b[1..], x, y);
      assert a == [a[0]] + a[1..] && b == [b[0]] + b[1..];
    } else {
      assert s[1..] == x && t[1..] == y;
    }
  }

  lemma SamePrefixCancels(p: string, x: string, y: string)
    requires p + x == p + y
    ensures x == y
  {
    assert (p + x)[|p|..] == x && (p + y)[|p|..] == y;
  }

  lemma PrefixesDiffer(a: PendingAction, b: PendingAction)
    requires Writable(a) && Writable(b)
    ensures ':' !in Prefix(a) && (Prefix(a) == Prefix(b) ==> a == b)
  {
    assert Prefix(Refund)[2] == 'r' && Prefix(Refund)[4] == 'f';
    assert Prefix(ReturnRequest)[2] == 'r' && Prefix(ReturnRequest)[4] == 't';
    assert Prefix(ReturnAddress)[2] == 'a';
  }

  /** Within a tenant, two keys are equal exactly when action, order and request are, as long as order ids have no
      colon (the order id pattern allows none); so retries share a key and nothing else does. */
  lemma KeysIdentifyRequests(tenantId: string, a: PendingAction, b: PendingAction,
                             orderA: string, orderB: string, requestA: string, requestB: string)
    requires Writable(a) && Writable(b) && ':' !in orderA && ':' !in orderB
    ensures OperationKey(a, tenantId, orderA, requestA) == OperationKey(b, tenantId, orderB, requestB)
       <==> a == b && orderA == orderB && requestA == requestB
  {
    if OperationKey(a, tenantId, orderA, requestA) == OperationKey(b, tenantId, orderB, requestB) {
      SameTail(a, b, tenantId, tenantId, orderA, orderB, requestA, requestB);
      SamePrefixCancels(tenantId, ":" + (orderA + (":" + requestA)), ":" + (orderB + (":" + requestB)));
      SamePrefixCancels(":", orderA + (":" + requestA), orderB + (":" + requestB));
      FirstColonSplits(orderA, orderB, requestA, requestB);
    }
  }

  /** Across tenants the same holds as long as tenant ids have no colon. */
  lemma PlainTenantsIdentify(a: PendingAction, b: PendingAction, tenantA: string, tenantB: string,
                             orderA: string, orderB: string, requestA: string, requestB: string)
    requires Writable(a) && Writable(b)
    requires ':' !in tenantA && ':' !in tenantB && ':' !in orderA && ':' !in orderB
    ensures OperationKey(a, tenantA, orderA, requestA) == OperationKey(b, tenantB, orderB, requestB)
       <==> a == b && tenantA == tenantB && orderA == orderB && requestA == requestB
  {
    if OperationKey(a, tenantA, orderA, requestA) == OperationKey(b, tenantB, orderB, requestB) {
      SameTail(a, b, tenantA, tenantB, orderA, orderB, requestA, requestB);
      FirstColonSplits(tenantA, tenantB, orderA + (":" + requestA), orderB + (":" + requestB));
      FirstColonSplits(orderA, orderB, requestA, requestB);
    }
  }

  /** Equal keys name the same action, and agree after it. */
  lemma SameTail(a: PendingAction, b: PendingAction, tenantA: string, tenantB: string,
                 orderA: string, orderB: string, requestA: string, requestB: string)
    requires Writable(a) && Writable(b)
    requires OperationKey(a, tenantA, orderA, requestA) == OperationKey(b, tenantB, orderB, requestB)
    ensures a == b
    ensures tenantA + (":" + (orderA + (":" + requestA))) == tenantB + (":" + (orderB + (":" + requestB)))
  {
    PrefixesDiffer(a, b);
    PrefixesDiffer(b, a);
    FirstColonSplits(Prefix(a), Prefix(b), tenantA + (":" + (orderA + (":" + requestA))),
                     tenantB + (":" + (orderB + (":" + requestB))));
  }

  // ----- any two tenants -----

  /** Two requests, each for an order with an acceptable id, have one key. */
  predicate OneKey(orderId: string -> bool, tenantA: string, tenantB: string, a: PendingAction, b: PendingAction,
                   orderA: string, orderB: string, requestA: string, requestB: string) {
    && Writable(a) && Writable(b) && orderId(orderA) && orderId(orderB) && requestA != "" && requestB != ""
    && OperationKey(a, tenantA, orderA, requestA) == OperationKey(b, tenantB, orderB, requestB)
  }

  /** Some requests of the two tenants have one key. */
  ghost predicate ShareKey(orderId: string -> bool, tenantA: string, tenantB: string) {
    exists a, b, orderA, orderB, requestA, requestB ::
      OneKey(orderId, tenantA, tenantB, a, b, orderA, orderB, requestA, requestB)
  }

  /** The longer tenant id goes on, after the shorter one and a colon, with an order id, and ends there or has a colon
      next. */
  ghost predicate Extends(orderId: string -> bool, tenantA: string, tenantB: string) {
    exists order :: orderId(order) && ContinuesWith(tenantA, order, tenantB)
  }

  predicate ContinuesWith(tenantA: string, order: string, tenantB: string) {
    tenantA + (":" + (order + ":")) <= tenantB + ":"
  }

  /** What follows a proper prefix of one string in another, when both strings go on to be equal. */
  lemma CutPrefix(s: string, t: string, x: string, y: string) returns (rest: string)
    requires s + (":" + x) == t + (":" + y) && |s| < |t|
    ensures t == s + (":" + rest) && x == rest + (":" + y)
  {
    var whole := s + (":" + x);
    rest := t[|s| + 1..];
    assert whole[..|s|] == s && whole[|s|] == ':' && whole[|s| + 1..] == x;
    assert whole[..|t|] == t && whole[|t|..] == ":" + y;
    assert t[..|s|] == s && t[|s|] == ':';
    assert whole[|s| + 1..] == whole[|s| + 1..|t|] + whole[|t|..];
  }

  lemma SharingExtends(orderId: string -> bool, tenantA: string, tenantB: string,
                       orderA: string, orderB: string, requestA: string, requestB: string)
    requires tenantA + (":" + (orderA + (":" + requestA))) == tenantB + (":" + (orderB + (":" + requestB)))
    requires |tenantA| < |tenantB| && orderId(orderA) && ':' !in orderA
    ensures Extends(orderId, tenantA, tenantB)
  {
    var rest := CutPrefix(tenantA, tenantB, orderA + (":" + requestA), orderB + (":" + requestB));
    FirstSegment(orderA, requestA, rest, orderB + (":" + requestB));
    assert tenantB + ":" == tenantA + (":" + (rest + ":"));
    assert ContinuesWith(tenantA, orderA, tenantB);
  }

  /** A part without colons that starts a text is a whole first segment of it. */
  lemma {:induction false} FirstSegment(a: string, x: string, rest: string, y: string)
    requires ':' !in a && a + (":" + x) == rest + (":" + y)
    ensures a + ":" <= rest + ":"
  {
    var whole := a + (":" + x);
    assert whole[|a|] == ':' && whole[..|a|] == a && whole[..|rest|] == rest && whole[|rest|] == ':';
    forall k | 0 <= k < |a|
      ensures whole[k] != ':'
    {
      assert whole[k] == a[k];
    }
  }

  lemma ExtendingShares(orderId: string -> bool, tenantA: string, tenantB: string, order: string, other: string)
    requires orderId(order) && orderId(other) && ContinuesWith(tenantA, order, tenantB)
    ensures ShareKey(orderId, tenantA, tenantB)
  {
    var head := tenantA + (":" + (order + ":"));
    var whole := tenantB + (":" + (other + (":" + "1")));
    assert head <= whole by {
      assert whole == (tenantB + ":") + (other + (":" + "1"));
    }
    var request := whole[|head|..];
    assert whole == head + request;
    assert head + request == tenantA + (":" + (order + (":" + request)));
    assert OneKey(orderId, tenantA, tenantB, Refund, Refund, order, other, request, "1");
  }

  lemma OneKeyExtends(orderId: string -> bool, tenantA: string, tenantB: string, a: PendingAction, b: PendingAction,
                      orderA: string, orderB: string, requestA: string, requestB: string)
    requires OneKey(orderId, tenantA, tenantB, a, b, orderA, orderB, requestA, requestB)
    requires tenantA != tenantB && ':' !in orderA && ':' !in orderB
    ensures Extends(orderId, tenantA, tenantB) || Extends(orderId, tenantB, tenantA)
  {
    SameTail(a, b, tenantA, tenantB, orderA, orderB, requestA, requestB);
    if |tenantA| < |tenantB| {
      SharingExtends(orderId, tenantA, tenantB, orderA, orderB, requestA, requestB);
    } else if |tenantB| < |tenantA| {
      SharingExtends(orderId, tenantB, tenantA, orderB, orderA, requestB, requestA);
    } else {
      SameLengthSame(tenantA, tenantB, ":" + (orderA + (":" + requestA)), ":" + (orderB + (":" + requestB)));
    }
  }

  /** Different tenants can meet in one key if and only if the id of one of them continues, after the other's id and a
      colon, with an order id as its next segment; whichever ids orders may have, as long as they have no colon. */
  lemma TenantsMeetExactlyWhenExtending(orderId: string -> bool, tenantA: string, tenantB: string, some: string)
    requires orderId(some) && forall order :: orderId(order) ==> ':' !in order
    requires tenantA != tenantB
    ensures ShareKey(orderId, tenantA, tenantB)
       <==> Extends(orderId, tenantA, tenantB) || Extends(orderId, tenantB, tenantA)
  {
    if ShareKey(orderId, tenantA, tenantB) {
      var a, b, orderA, orderB, requestA, requestB :|
        OneKey(orderId, tenantA, tenantB, a, b, orderA, orderB, requestA, requestB);
      OneKeyExtends(orderId, tenantA, tenantB, a, b, orderA, orderB, requestA, requestB);
    }
    if Extends(orderId, tenantA, tenantB) {
      var order :| orderId(order) && ContinuesWith(tenantA, order, tenantB);
      ExtendingShares(orderId, tenantA, tenantB, order, some);
    }
    if Extends(orderId, tenantB, tenantA) {
      var order :| orderId(order) && ContinuesWith(tenantB, order, tenantA);
      ExtendingShares(orderId, tenantB, tenantA, order, some);
      SharingIsMutual(orderId, tenantB, tenantA);
    }
  }

  lemma SharingIsMutual(orderId: string -> bool, tenantA: string, tenantB: string)
    requires ShareKey(orderId, tenantA, tenantB)
    ensures ShareKey(orderId, tenantB, tenantA)
  {
    var a, b, orderA, orderB, requestA, requestB :|
      OneKey(orderId, tenantA, tenantB, a, b, orderA, orderB, requestA, requestB);
    assert OneKey(orderId, tenantB, tenantA, b, a, orderB, orderA, requestB, requestA);
  }

  lemma SameLengthSame(s: string, t: string, x: string, y: string)
    requires s + x == t + y && |s| == |t|
    ensures s == t
  {
    assert (s + x)[..|s|] == s && (t + y)[..|t|] == t;
  }

  // ----- the order ids the nodes accept -----

  predicate Digit(c: char) {
    '0' <= c <= '9'
  }

  /** ORD, a dash or underscore or neither, and digits, in either case. */
  predicate OrderId(s: string) {
    && |s| > 3
    && (s[0] == 'O' || s[0] == 'o') && (s[1] == 'R' || s[1] == 'r') && (s[2] == 'D' || s[2] == 'd')
    && var number := if s[3] == '-' || s[3] == '_' then s[4..] else s[3..];
       number != [] && forall c :: c in number ==> Digit(c)
  }

  lemma ShortestOrderId(d: char)
    requires Digit(d)
    ensures OrderId(['O', 'R', 'D', d])
  {
    assert ['O', 'R', 'D', d][3..] == [d];
  }

  lemma OrderIdsHaveNoColon(s: string)
    requires OrderId(s)
    ensures ':' !in s
  {
    var from := if s[3] == '-' || s[3] == '_' then 4 else 3;
    forall i | 0 <= i < |s|
      ensures s[i] != ':'
    {
      if i >= from {
        assert s[from..][i - from] == s[i] && s[i] in s[from..];
        assert Digit(s[i]);
      }
    }
  }

  /** A tenant whose id is another's with a colon and an order id behind it: these two refund requests have one key. */
  lemma ColonShifts(tenantId: string, order: string, other: string, request: string)
    requires OrderId(order) && OrderId(other) && request != ""
    ensures OneKey(OrderId, tenantId, tenantId + (":" + order), Refund, Refund,
                   order, other, other + (":" + request), request)
  {
    assert tenantId + (":" + (order + (":" + (other + (":" + request)))))
        == (tenantId + (":" + order)) + (":" + (other + (":" + request)));
  }

  /** For one, tenants `a` and `a:ORD1` with orders ORD1 and ORD2 and requests `ORD2:d` and `d`. */
  lemma ColonInTenantConfuses()
    ensures OneKey(OrderId, "a", "a:ORD1", Refund, Refund, "ORD1", "ORD2", "ORD2:d", "d")
  {
    ShortestOrderId('1');
    ShortestOrderId('2');
    ColonShifts(['a'], ['O', 'R', 'D', '1'], ['O', 'R', 'D', '2'], ['d']);
    assert ['a'] + (":" + ['O', 'R', 'D', '1']) == ['a', ':', 'O', 'R', 'D', '1'];
    assert ['O', 'R', 'D', '2'] + (":" + ['d']) == ['O', 'R', 'D', '2', ':', 'd'];
  }

  /** Tenants whose ids have no colon never meet. */
  lemma PlainTenantsNeverMeet(tenantA: string, tenantB: string)
    requires tenantA != tenantB && ':' !in tenantA && ':' !in tenantB
    ensures !ShareKey(OrderId, tenantA, tenantB)
  {
    if ShareKey(OrderId, tenantA, tenantB) {
      var a, b, orderA, orderB, requestA, requestB :|
        OneKey(OrderId, tenantA, tenantB, a, b, orderA, orderB, requestA, requestB);
      OrderIdsHaveNoColon(orderA);
      OrderIdsHaveNoColon(orderB);
      PlainTenantsIdentify(a, b, tenantA, tenantB, orderA, orderB, requestA, requestB);
    }
  }
}
