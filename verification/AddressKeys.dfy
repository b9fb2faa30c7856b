/** The key of an address on a chain, shared by the velocity windows and the risk cache. */
module AddressKeys {
  import opened IdempotencyKeys

  function AddressKey(address: string, chain: string): string {
    Lower(address) + ":" + chain
  }

  /** Chains without colons keep addresses apart, up to the case of their letters. */
  lemma AddressKeyIdentifies(a: string, c: string, b: string, d: string)
    requires ColonFree(c) && ColonFree(d)
    ensures AddressKey(a, c) == AddressKey(b, d) <==> Lower(a) == Lower(b) && c == d
  {
    if AddressKey(a, c) == AddressKey(b, d) {
      var key := AddressKey(a, c);
      assert key[|Lower(a)|] == ':' && key[|Lower(b)|] == ':';
      assert forall i :: |Lower(a)| < i < |key| ==> key[i] == c[i - |Lower(a)| - 1];
      assert forall i :: |Lower(b)| < i < |key| ==> key[i] == d[i - |Lower(b)| - 1];
      assert |Lower(a)| == |Lower(b)|;
      assert key[..|Lower(a)|] == Lower(a) && key[..|Lower(b)|] == Lower(b);
      assert key[|Lower(a)| + 1..] == c && key[|Lower(b)| + 1..] == d;
    }
  }
}
