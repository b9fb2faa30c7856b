/** The idempotency keys of the worker's jobs: colon-joined fields. */
module IdempotencyKeys {

  /** One observed transfer; amount is a decimal string in base units. */
  datatype Transfer = Transfer(txHash: string, to: string, asset: string, amount: string)

  /** toLowerCase on ASCII letters; other characters are their own lower case. */
  function Lower(s: string): string {
    seq(|s|, i requires 0 <= i < |s| =>
      if 'A' <= s[i] <= 'Z' then (s[i] as int + 32) as char else s[i])
  }

  function Join(parts: seq<string>): string
    requires |parts| > 0
  {
    if |parts| == 1 then parts[0] else parts[0] + ":" + Join(parts[1..])
  }

  function DepositParts(chainId: string, t: Transfer): seq<string> {
    ["deposit", chainId, Lower(t.txHash), Lower(t.to), Lower(t.asset), t.amount]
  }

  function DepositKey(chainId: string, t: Transfer): string {
    Join(DepositParts(chainId, t))
  }

  function UnattributedKey(chainId: string, t: Transfer): string {
    DepositKey(chainId, t) + ":unattributed"
  }

  function ConfirmKey(chainId: string, txHash: string): string {
    "confirm:" + chainId + ":" + txHash
  }

  predicate ColonFree(s: string) {
    ':' !in s
  }

  predicate ColonFreeTransfer(chainId: string, t: Transfer) {
    ColonFree(chainId) && ColonFree(t.txHash) && ColonFree(t.to) && ColonFree(t.asset) && ColonFree(t.amount)
  }

  /** Lower case is the same for two strings exactly if they differ at most in the case of letters. */
  lemma LowerFolds(s: string, t: string)
    ensures Lower(s) == Lower(t) <==>
            && |s| == |t|
            && forall i :: 0 <= i < |s| ==>
                 s[i] == t[i] || ('A' <= s[i] <= 'Z' && t[i] as int == s[i] as int + 32)
                 || ('A' <= t[i] <= 'Z' && s[i] as int == t[i] as int + 32)
    ensures |Lower(s)| == |s| && forall i :: 0 <= i < |s| ==> !('A' <= Lower(s)[i] <= 'Z')
  {
    if Lower(s) == Lower(t) {
      assert |s| == |Lower(s)| == |Lower(t)| == |t|;
      forall i | 0 <= i < |s|
        ensures s[i] == t[i] || ('A' <= s[i] <= 'Z' && t[i] as int == s[i] as int + 32)
                || ('A' <= t[i] <= 'Z' && s[i] as int == t[i] as int + 32)
      {
        assert Lower(s)[i] == Lower(t)[i];
        SameLetter(s[i], t[i]);
      }
    }
  }

  lemma SameLetter(x: char, y: char)
    requires Lower([x])[0] == Lower([y])[0]
    ensures x == y || ('A' <= x <= 'Z' && y as int == x as int + 32) || ('A' <= y <= 'Z' && x as int == y as int + 32)
  {
    var a := if 'A' <= x <= 'Z' then x as int + 32 else x as int;
    var b := if 'A' <= y <= 'Z' then y as int + 32 else y as int;
    assert Lower([x])[0] as int == a && Lower([y])[0] as int == b;
    assert x as int == y as int ==> x == y;
  }

  /** The keys, written out. */
  lemma KeysInFull(chainId: string, t: Transfer, txHash: string)
    ensures DepositKey(chainId, t)
         == "deposit:" + chainId + ":" + Lower(t.txHash) + ":" + Lower(t.to) + ":" + Lower(t.asset) + ":" + t.amount
    ensures UnattributedKey(chainId, t) == DepositKey(chainId, t) + ":unattributed"
    ensures ConfirmKey(chainId, txHash) == "confirm:" + chainId + ":" + txHash
  {
    var parts := ["deposit", chainId, Lower(t.txHash), Lower(t.to), Lower(t.asset)];
    JoinSnoc(parts, t.amount);
    JoinSnoc(parts[..4], Lower(t.asset));
    JoinSnoc(parts[..3], Lower(t.to));
    JoinSnoc(parts[..2], Lower(t.txHash));
    JoinSnoc(parts[..1], chainId);
    assert DepositParts(chainId, t) == parts + [t.amount];
    assert parts == parts[..4] + [Lower(t.asset)] && parts[..4] == parts[..3] + [Lower(t.to)];
    assert parts[..3] == parts[..2] + [Lower(t.txHash)] && parts[..2] == parts[..1] + [chainId] && parts[..1] == ["deposit"];
    assert "deposit" + ":" == "deposit:";
  }

  lemma LowerColonFree(s: string)
    requires ColonFree(s)
    ensures ColonFree(Lower(s))
  {
    assert forall i :: 0 <= i < |s| ==> s[i] in s;
  }

  /** Up to its first colon a string is determined. */
  lemma HeadIsUnique(x: string, u: string, y: string, v: string)
    requires ColonFree(x) && ColonFree(y) && x + ":" + u == y + ":" + v
    ensures x == y && u == v
  {
    var s := x + ":" + u;
    assert s[|x|] == ':' && s[|y|] == ':';
    assert |x| == |y|;
    assert s[..|x|] == x && s[..|y|] == y;
    assert s[|x| + 1..] == u && s[|y| + 1..] == v;
  }

  lemma HeadHasNoColon(x: string, y: string, v: string)
    requires ColonFree(x)
    ensures x != y + ":" + v
  {
    assert (y + ":" + v)[|y|] == ':';
  }

  /** Joining colon-free fields loses nothing. */
  lemma {:induction false} JoinIsInjective(a: seq<string>, b: seq<string>)
    requires |a| > 0 && |b| > 0 && Join(a) == Join(b)
    requires forall k :: 0 <= k < |a| ==> ColonFree(a[k])
    requires forall k :: 0 <= k < |b| ==> ColonFree(b[k])
    ensures a == b
  {
    if |a| == 1 && |b| > 1 {
      HeadHasNoColon(a[0], b[0], Join(b[1..]));
    } else if |b| == 1 && |a| > 1 {
      HeadHasNoColon(b[0], a[0], Join(a[1..]));
    } else if |a| > 1 {
      HeadIsUnique(a[0], Join(a[1..]), b[0], Join(b[1..]));
      JoinIsInjective(a[1..], b[1..]);
      assert a == [a[0]] + a[1..] && b == [b[0]] + b[1..];
    }
  }

  lemma PartsColonFree(chainId: string, t: Transfer)
    requires ColonFreeTransfer(chainId, t)
    ensures forall k :: 0 <= k < 6 ==> ColonFree(DepositParts(chainId, t)[k])
  {
    LowerColonFree(t.txHash);
    LowerColonFree(t.to);
    LowerColonFree(t.asset);
  }

  lemma {:induction false} JoinSnoc(parts: seq<string>, last: string)
    requires |parts| > 0
    ensures Join(parts + [last]) == Join(parts) + ":" + last
  {
    if |parts| > 1 {
      JoinSnoc(parts[1..], last);
      assert (parts + [last])[1..] == parts[1..] + [last];
    } else {
      assert (parts + [last])[1..] == [last];
    }
  }

  lemma UnattributedIsJoin(chainId: string, t: Transfer)
    ensures UnattributedKey(chainId, t) == Join(DepositParts(chainId, t) + ["unattributed"])
  {
    JoinSnoc(DepositParts(chainId, t), "unattributed");
    assert ":unattributed" == ":" + "unattributed";
  }

  lemma ConfirmIsJoin(chainId: string, txHash: string)
    ensures ConfirmKey(chainId, txHash) == Join(["confirm", chainId, txHash])
  {
    var parts := ["confirm", chainId, txHash];
    assert parts[1..] == [chainId, txHash];
    assert [chainId, txHash][1..] == [txHash];
    assert Join([chainId, txHash]) == chainId + ":" + Join([txHash]);
    assert Join(parts) == "confirm" + ":" + (chainId + ":" + txHash);
    assert ConfirmKey(chainId, txHash) == "confirm" + ":" + (chainId + ":" + txHash);
  }

  /** Two transfers share a key exactly when they agree on every field, up to letter case in
      the hash and the addresses. */
  lemma DepositKeyIdentifies(c: string, t: Transfer, d: string, u: Transfer)
    requires ColonFreeTransfer(c, t) && ColonFreeTransfer(d, u)
    ensures DepositKey(c, t) == DepositKey(d, u) <==>
            && c == d && t.amount == u.amount && Lower(t.txHash) == Lower(u.txHash)
            && Lower(t.to) == Lower(u.to) && Lower(t.asset) == Lower(u.asset)
  {
    if DepositKey(c, t) == DepositKey(d, u) {
      PartsColonFree(c, t);
      PartsColonFree(d, u);
      JoinIsInjective(DepositParts(c, t), DepositParts(d, u));
      var p, q := DepositParts(c, t), DepositParts(d, u);
      assert p[1] == q[1] && p[2] == q[2] && p[3] == q[3] && p[4] == q[4] && p[5] == q[5];
    }
  }

  /** The three kinds of key never meet. */
  lemma KeyKindsDisjoint(c: string, t: Transfer, d: string, u: Transfer, e: string, txHash: string)
    requires ColonFreeTransfer(c, t) && ColonFreeTransfer(d, u) && ColonFree(e) && ColonFree(txHash)
    ensures DepositKey(c, t) != UnattributedKey(d, u)
    ensures DepositKey(c, t) != ConfirmKey(e, txHash)
    ensures UnattributedKey(d, u) != ConfirmKey(e, txHash)
  {
    PartsColonFree(c, t);
    PartsColonFree(d, u);
    UnattributedIsJoin(d, u);
    ConfirmIsJoin(e, txHash);
    var p, q := DepositParts(d, u) + ["unattributed"], ["confirm", e, txHash];
    assert |DepositParts(c, t)| != |p| && |DepositParts(c, t)| != |q| && |p| != |q|;
    if DepositKey(c, t) == Join(p) {
      JoinIsInjective(DepositParts(c, t), p);
    }
    if DepositKey(c, t) == Join(q) {
      JoinIsInjective(DepositParts(c, t), q);
    }
    if Join(p) == Join(q) {
      JoinIsInjective(p, q);
    }
  }

  /** Confirm keys identify the chain and the hash, letter case included. */
  lemma ConfirmKeyIdentifies(c: string, h: string, d: string, g: string)
    requires ColonFree(c) && ColonFree(h) && ColonFree(d) && ColonFree(g)
    ensures ConfirmKey(c, h) == ConfirmKey(d, g) <==> c == d && h == g
  {
    if ConfirmKey(c, h) == ConfirmKey(d, g) {
      ConfirmIsJoin(c, h);
      ConfirmIsJoin(d, g);
      var p, q := ["confirm", c, h], ["confirm", d, g];
      JoinIsInjective(p, q);
      assert p[1] == q[1] && p[2] == q[2];
    }
  }

  // Which keys are shared.

  function Colons(s: string): nat {
    if s == "" then 0 else (if s[0] == ':' then 1 else 0) + Colons(s[1..])
  }

  lemma {:induction false} ColonsAppend(a: string, b: string)
    ensures Colons(a + b) == Colons(a) + Colons(b)
  {
    if a == "" {
      assert a + b == b;
    } else {
      ColonsAppend(a[1..], b);
      assert (a + b)[1..] == a[1..] + b;
    }
  }

  lemma {:induction false} NoColons(s: string)
    ensures Colons(s) == 0 <==> ColonFree(s)
  {
    if s != "" {
      NoColons(s[1..]);
      assert s == [s[0]] + s[1..];
    }
  }

  lemma {:induction false} ColonsOfLower(s: string)
    ensures Colons(Lower(s)) == Colons(s)
  {
    if s != "" {
      ColonsOfLower(s[1..]);
      assert Lower(s)[1..] == Lower(s[1..]);
    }
  }

  function SumOfColons(parts: seq<string>): nat {
    if parts == [] then 0 else Colons(parts[0]) + SumOfColons(parts[1..])
  }

  lemma {:induction false} ColonsOfJoin(parts: seq<string>)
    requires |parts| > 0
    ensures Colons(Join(parts)) == SumOfColons(parts) + |parts| - 1
  {
    if |parts| > 1 {
      ColonsOfJoin(parts[1..]);
      ColonsAppend(parts[0] + ":", Join(parts[1..]));
      ColonsAppend(parts[0], ":");
      assert Colons(":") == 1 + Colons("");
    } else {
      assert parts[1..] == [];
    }
  }

  function FieldColons(chainId: string, t: Transfer): nat {
    Colons(chainId) + Colons(t.txHash) + Colons(t.to) + Colons(t.asset) + Colons(t.amount)
  }

  lemma ColonsOfKey(chainId: string, t: Transfer)
    ensures Colons(DepositKey(chainId, t)) == 5 + FieldColons(chainId, t)
  {
    var p := DepositParts(chainId, t);
    ColonsOfJoin(p);
    ColonsOfLower(t.txHash);
    ColonsOfLower(t.to);
    ColonsOfLower(t.asset);
    NoColons("deposit");
    SumOfSix(p);
  }

  lemma SumOfSix(p: seq<string>)
    requires |p| == 6
    ensures SumOfColons(p) == Colons(p[0]) + Colons(p[1]) + Colons(p[2]) + Colons(p[3]) + Colons(p[4]) + Colons(p[5])
  {
    assert p[1..][1..] == p[2..] && p[2..][1..] == p[3..] && p[3..][1..] == p[4..] && p[4..][1..] == p[5..] && p[5..][1..] == [];
    assert SumOfColons(p[5..]) == Colons(p[5]);
    assert SumOfColons(p[4..]) == Colons(p[4]) + SumOfColons(p[5..]);
    assert SumOfColons(p[3..]) == Colons(p[3]) + SumOfColons(p[4..]);
    assert SumOfColons(p[2..]) == Colons(p[2]) + SumOfColons(p[3..]);
    assert SumOfColons(p[1..]) == Colons(p[1]) + SumOfColons(p[2..]);
  }

  lemma NoFieldColons(chainId: string, t: Transfer)
    ensures FieldColons(chainId, t) == 0 <==> ColonFreeTransfer(chainId, t)
  {
    NoColons(chainId);
    NoColons(t.txHash);
    NoColons(t.to);
    NoColons(t.asset);
    NoColons(t.amount);
  }

  /** The same transfer but for letter case in the hash and the addresses. */
  predicate SameTransfer(c: string, t: Transfer, d: string, u: Transfer) {
    && c == d && t.amount == u.amount && Lower(t.txHash) == Lower(u.txHash)
    && Lower(t.to) == Lower(u.to) && Lower(t.asset) == Lower(u.asset)
  }

  /** The key of a colon-free transfer is its own, whatever the fields of the other. */
  lemma ColonFreeKeyIsOwn(c: string, t: Transfer, d: string, u: Transfer)
    requires ColonFreeTransfer(c, t)
    ensures DepositKey(c, t) == DepositKey(d, u) <==> SameTransfer(c, t, d, u)
  {
    if DepositKey(c, t) == DepositKey(d, u) {
      ColonsOfKey(c, t);
      ColonsOfKey(d, u);
      NoFieldColons(c, t);
      NoFieldColons(d, u);
      DepositKeyIdentifies(c, t, d, u);
    }
    SameKeys(c, t, d, u);
  }

  lemma SameKeys(c: string, t: Transfer, d: string, u: Transfer)
    ensures SameTransfer(c, t, d, u) ==> DepositKey(c, t) == DepositKey(d, u)
  {
    assert SameTransfer(c, t, d, u) ==> DepositParts(c, t) == DepositParts(d, u);
  }

  lemma JoinHead(first: string, rest: seq<string>)
    requires |rest| > 0
    ensures Join([first] + rest) == first + ":" + Join(rest)
  {
    assert ([first] + rest)[1..] == rest;
  }

  lemma JoinSplitsHead(a: string, b: string, rest: seq<string>)
    ensures Join([a + ":" + b] + rest) == Join([a] + ([b] + rest))
  {
    JoinHead(a, [b] + rest);
    if rest == [] {
      assert [a + ":" + b] + rest == [a + ":" + b] && [b] + rest == [b];
    } else {
      JoinHead(a + ":" + b, rest);
      JoinHead(b, rest);
      assert a + ":" + b + ":" + Join(rest) == a + ":" + (b + ":" + Join(rest));
    }
  }

  lemma {:induction false} SameTails(front: seq<string>, one: seq<string>, other: seq<string>)
    requires |one| > 0 && |other| > 0 && Join(one) == Join(other)
    ensures Join(front + one) == Join(front + other)
  {
    if front == [] {
      assert front + one == one && front + other == other;
    } else {
      SameTails(front[1..], one, other);
      JoinHead(front[0], front[1..] + one);
      JoinHead(front[0], front[1..] + other);
      assert front + one == [front[0]] + (front[1..] + one);
      assert front + other == [front[0]] + (front[1..] + other);
    }
  }

  /** A part with a colon might as well have been two. */
  lemma JoinSplits(front: seq<string>, a: string, b: string, rest: seq<string>)
    ensures Join(front + [a + ":" + b] + rest) == Join(front + [a] + [b] + rest)
  {
    JoinSplitsHead(a, b, rest);
    SameTails(front, [a + ":" + b] + rest, [a] + ([b] + rest));
    assert front + [a + ":" + b] + rest == front + ([a + ":" + b] + rest);
    assert front + [a] + [b] + rest == front + ([a] + ([b] + rest));
  }

  /** Joining forgets where a colon came from. */
  lemma ColonMoves(front: seq<string>, a: string, b: string, c: string, rest: seq<string>)
    ensures Join(front + [a, b + ":" + c] + rest) == Join(front + [a + ":" + b, c] + rest)
  {
    JoinSplits(front + [a], b, c, rest);
    JoinSplits(front, a, b, [c] + rest);
    assert front + [a, b + ":" + c] + rest == front + [a] + [b + ":" + c] + rest;
    assert front + [a + ":" + b, c] + rest == front + [a + ":" + b] + ([c] + rest);
    assert front + [a] + [b] + ([c] + rest) == front + [a] + [b] + [c] + rest;
  }

  lemma LowerColon(a: string, b: string)
    ensures Lower(a + ":" + b) == Lower(a) + ":" + Lower(b)
  {
  }

  lemma AtColon(s: string) returns (a: string, b: string)
    requires !ColonFree(s)
    ensures s == a + ":" + b
  {
    var i :| 0 <= i < |s| && s[i] == ':';
    a, b := s[..i], s[i + 1..];
  }

  /** A colon in the hash may as well end the chain's name, */
  lemma HashColonMoves(c: string, a: string, b: string, t: Transfer)
    requires t.txHash == a + ":" + b
    ensures DepositKey(c, t) == DepositKey(c + ":" + Lower(a), t.(txHash := b))
  {
    var rest := [Lower(t.to), Lower(t.asset), t.amount];
    LowerColon(a, b);
    ColonMoves(["deposit"], c, Lower(a), Lower(b), rest);
    assert DepositParts(c, t) == ["deposit"] + [c, Lower(a) + ":" + Lower(b)] + rest;
    assert DepositParts(c + ":" + Lower(a), t.(txHash := b)) == ["deposit"] + [c + ":" + Lower(a), Lower(b)] + rest;
  }

  /** one in the address the hash, */
  lemma ToColonMoves(c: string, a: string, b: string, t: Transfer)
    requires t.to == a + ":" + b
    ensures DepositKey(c, t) == DepositKey(c, t.(txHash := t.txHash + ":" + a, to := b))
  {
    var front, rest := ["deposit", c], [Lower(t.asset), t.amount];
    LowerColon(a, b);
    LowerColon(t.txHash, a);
    ColonMoves(front, Lower(t.txHash), Lower(a), Lower(b), rest);
    assert DepositParts(c, t) == front + [Lower(t.txHash), Lower(a) + ":" + Lower(b)] + rest;
    assert DepositParts(c, t.(txHash := t.txHash + ":" + a, to := b)) == front + [Lower(t.txHash) + ":" + Lower(a), Lower(b)] + rest;
  }

  /** one in the asset the address, */
  lemma AssetColonMoves(c: string, a: string, b: string, t: Transfer)
    requires t.asset == a + ":" + b
    ensures DepositKey(c, t) == DepositKey(c, t.(to := t.to + ":" + a, asset := b))
  {
    var front, rest := ["deposit", c, Lower(t.txHash)], [t.amount];
    LowerColon(a, b);
    LowerColon(t.to, a);
    ColonMoves(front, Lower(t.to), Lower(a), Lower(b), rest);
    assert DepositParts(c, t) == front + [Lower(t.to), Lower(a) + ":" + Lower(b)] + rest;
    assert DepositParts(c, t.(to := t.to + ":" + a, asset := b)) == front + [Lower(t.to) + ":" + Lower(a), Lower(b)] + rest;
  }

  /** and one in the amount the asset, if what precedes it is in lower case. */
  lemma AmountColonMoves(c: string, a: string, b: string, t: Transfer)
    requires t.amount == a + ":" + b && Lower(a) == a
    ensures DepositKey(c, t) == DepositKey(c, t.(asset := t.asset + ":" + a, amount := b))
  {
    var front := ["deposit", c, Lower(t.txHash), Lower(t.to)];
    LowerColon(t.asset, a);
    ColonMoves(front, Lower(t.asset), a, b, []);
    assert DepositParts(c, t) == front + [Lower(t.asset), a + ":" + b] + [];
    assert DepositParts(c, t.(asset := t.asset + ":" + a, amount := b)) == front + [Lower(t.asset) + ":" + a, b] + [];
  }

  ghost predicate Shared(c: string, t: Transfer) {
    exists d, u :: DepositKey(c, t) == DepositKey(d, u) && !SameTransfer(c, t, d, u)
  }

  lemma ColonIsShared(c: string, t: Transfer) returns (d: string, u: Transfer)
    requires Lower(c) == c && Lower(t.amount) == t.amount && !ColonFreeTransfer(c, t)
    ensures DepositKey(c, t) == DepositKey(d, u) && !SameTransfer(c, t, d, u)
  {
    if !ColonFree(t.txHash) {
      var a, b := AtColon(t.txHash);
      HashColonMoves(c, a, b, t);
      d, u := c + ":" + Lower(a), t.(txHash := b);
    } else if !ColonFree(t.to) {
      var a, b := AtColon(t.to);
      ToColonMoves(c, a, b, t);
      d, u := c, t.(txHash := t.txHash + ":" + a, to := b);
      assert |Lower(u.to)| < |Lower(t.to)|;
    } else if !ColonFree(t.asset) {
      var a, b := AtColon(t.asset);
      AssetColonMoves(c, a, b, t);
      d, u := c, t.(to := t.to + ":" + a, asset := b);
      assert |Lower(u.asset)| < |Lower(t.asset)|;
    } else if !ColonFree(c) {
      var a, b := AtColon(c);
      LowerColon(a, b);
      LowerParts(a, b, c);
      d, u := a, t.(txHash := b + ":" + t.txHash);
      HashColonMoves(a, b, t.txHash, u);
    } else {
      var a, b := AtColon(t.amount);
      LowerParts(a, b, t.amount);
      AmountColonMoves(c, a, b, t);
      d, u := c, t.(asset := t.asset + ":" + a, amount := b);
    }
  }

  lemma LowerParts(a: string, b: string, s: string)
    requires s == a + ":" + b && Lower(s) == s
    ensures Lower(a) == a && Lower(b) == b
  {
    LowerColon(a, b);
    assert Lower(s)[..|a|] == Lower(a) && Lower(s)[|a| + 1..] == Lower(b);
  }

  /** Among chains and amounts without upper-case letters, a key is shared by transfers that
      differ beyond letter case exactly if one of the fields holds a colon. */
  lemma ColonsCollide(c: string, t: Transfer)
    requires Lower(c) == c && Lower(t.amount) == t.amount
    ensures Shared(c, t) <==> !ColonFreeTransfer(c, t)
  {
    if ColonFreeTransfer(c, t) {
      forall d, u | DepositKey(c, t) == DepositKey(d, u)
        ensures SameTransfer(c, t, d, u)
      {
        ColonFreeKeyIsOwn(c, t, d, u);
      }
    } else {
      var d, u := ColonIsShared(c, t);
    }
  }

  lemma SplitPart(parts: seq<string>, k: nat, a: string, b: string)
    requires k < |parts| && parts[k] == a + ":" + b
    ensures Join(parts) == Join(parts[..k] + [a] + [b] + parts[k + 1..])
  {
    var front, rest := parts[..k], parts[k + 1..];
    assert parts == front + [parts[k]] + rest;
    JoinSplits(front, a, b, rest);
  }

  /** Upper case must be excepted: where a chain ends in a part with an upper-case letter, its one
      colon can be taken for no other, since hash and addresses are put in lower case. */
  lemma UpperCaseStands(x: string, y: string, t: Transfer, d: string, u: Transfer)
    requires ColonFreeTransfer(x, t) && ColonFree(y) && Lower(y) != y
    requires DepositKey(x + ":" + y, t) == DepositKey(d, u)
    ensures SameTransfer(x + ":" + y, t, d, u)
  {
    var p, q := DepositParts(x + ":" + y, t), DepositParts(d, u);
    SplitPart(p, 1, x, y);
    var flat := p[..1] + [x] + [y] + p[2..];
    PartsColonFree(x, t);
    OneColon(x, y, t, d, u);
    var k, a, b := TheColon(d, u);
    SplitPart(q, k, a, b);
    var other := q[..k] + [a] + [b] + q[k + 1..];
    assert forall i :: 0 <= i < 7 ==> ColonFree(flat[i]) by {
      assert forall i :: 2 <= i < 6 ==> p[i] == DepositParts(x, t)[i];
    }
    JoinIsInjective(flat, other);
    if k != 1 {
      SecondPartIsLower(d, u, k, a, b);
    } else {
      assert a == flat[1] && b == flat[2];
      assert forall i :: 2 <= i < 6 ==> p[i] == flat[i + 1] == other[i + 1] == q[i];
      assert p[2] == q[2] && p[3] == q[3] && p[4] == q[4] && p[5] == q[5];
    }
  }

  lemma OneColon(x: string, y: string, t: Transfer, d: string, u: Transfer)
    requires ColonFreeTransfer(x, t) && ColonFree(y) && DepositKey(x + ":" + y, t) == DepositKey(d, u)
    ensures FieldColons(d, u) == 1
  {
    ColonsOfKey(x + ":" + y, t);
    ColonsOfKey(d, u);
    NoFieldColons(x, t);
    NoColons(y);
    ColonsAppend(x + ":", y);
    ColonsAppend(x, ":");
    assert Colons(":") == 1 + Colons("");
  }

  /** The part that holds the only colon of the fields, and its two halves. */
  lemma TheColon(d: string, u: Transfer) returns (k: nat, a: string, b: string)
    requires FieldColons(d, u) == 1
    ensures 1 <= k < 6 && DepositParts(d, u)[k] == a + ":" + b && ColonFree(a) && ColonFree(b)
    ensures forall i :: 0 <= i < 6 && i != k ==> ColonFree(DepositParts(d, u)[i])
    ensures 2 <= k <= 4 ==> Lower(a) == a
  {
    k := PartWithColon(d, u);
    var part := DepositParts(d, u)[k];
    a, b := Halves(part);
    if 2 <= k <= 4 {
      LowerTwice(if k == 2 then u.txHash else if k == 3 then u.to else u.asset);
      LowerParts(a, b, part);
    }
  }

  lemma PartWithColon(d: string, u: Transfer) returns (k: nat)
    requires FieldColons(d, u) == 1
    ensures 1 <= k < 6 && Colons(DepositParts(d, u)[k]) == 1
    ensures forall i :: 0 <= i < 6 && i != k ==> ColonFree(DepositParts(d, u)[i])
  {
    ColonsOfLower(u.txHash);
    ColonsOfLower(u.to);
    ColonsOfLower(u.asset);
    k := OneOfFive(DepositParts(d, u));
  }

  lemma OneOfFive(q: seq<string>) returns (k: nat)
    requires |q| == 6 && ColonFree(q[0])
    requires Colons(q[1]) + Colons(q[2]) + Colons(q[3]) + Colons(q[4]) + Colons(q[5]) == 1
    ensures 1 <= k < 6 && Colons(q[k]) == 1
    ensures forall i :: 0 <= i < 6 && i != k ==> ColonFree(q[i])
  {
    k := if Colons(q[1]) == 1 then 1 else if Colons(q[2]) == 1 then 2 else if Colons(q[3]) == 1 then 3
    else if Colons(q[4]) == 1 then 4 else 5;
    NoColons(q[1]);
    NoColons(q[2]);
    NoColons(q[3]);
    NoColons(q[4]);
    NoColons(q[5]);
  }

  lemma Halves(s: string) returns (a: string, b: string)
    requires Colons(s) == 1
    ensures s == a + ":" + b && ColonFree(a) && ColonFree(b)
  {
    NoColons(s);
    a, b := AtColon(s);
    ColonsAppend(a + ":", b);
    ColonsAppend(a, ":");
    assert Colons(":") == 1 + Colons("");
    NoColons(a);
    NoColons(b);
  }

  lemma LowerTwice(s: string)
    ensures Lower(Lower(s)) == Lower(s)
  {
    assert |Lower(Lower(s))| == |s|;
    assert forall i :: 0 <= i < |s| ==> Lower(Lower(s))[i] == Lower(s)[i];
  }

  lemma SecondPartIsLower(d: string, u: Transfer, k: nat, a: string, b: string)
    requires 2 <= k < 6 && (k <= 4 ==> Lower(a) == a)
    ensures var q := DepositParts(d, u);
            var part := (q[..k] + [a] + [b] + q[k + 1..])[2];
            Lower(part) == part
  {
    LowerTwice(u.txHash);
  }
}
