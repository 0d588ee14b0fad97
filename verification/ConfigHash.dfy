/** The bytes fed to the configuration hash. Text and secret values stand for their bytes. */
module ConfigHash {
  import opened Sorting
  import opened TextLines

  type Secret = map<string, string>

  datatype Pair = Pair(key: string, value: string)

  /** The key, a NUL, the value, a NUL. */
  function Encode(p: Pair): string {
    p.key + "\0" + (p.value + "\0")
  }

  function Stream(pairs: seq<Pair>): string {
    if pairs == [] then "" else Encode(pairs[0]) + Stream(pairs[1..])
  }

  function PairsOf(keys: seq<string>, secret: Secret): (r: seq<Pair>)
    requires forall k :: k in keys ==> k in secret
    ensures |r| == |keys| && forall i :: 0 <= i < |r| ==> r[i] == Pair(keys[i], secret[keys[i]])
  {
    seq(|keys|, i requires 0 <= i < |keys| => Pair(keys[i], secret[keys[i]]))
  }

  ghost function AllPairs(secrets: seq<Secret>): seq<Pair> {
    if secrets == [] then [] else PairsOf(SortedKeys(secrets[0].Keys), secrets[0]) + AllPairs(secrets[1..])
  }

  /** A function of the maps alone: no iteration order enters. */
  ghost function Preimage(conf: string, secrets: seq<Secret>): string {
    conf + Stream(AllPairs(secrets))
  }

  lemma {:induction false} StreamConcat(a: seq<Pair>, b: seq<Pair>)
    ensures Stream(a + b) == Stream(a) + Stream(b)
  {
    if a == [] {
      assert a + b == b;
    } else {
      assert (a + b)[1..] == a[1..] + b;
      StreamConcat(a[1..], b);
    }
  }

  /** What is written for one secret, keys sorted, whatever order the map was iterated in. */
  method WriteSecret(h: string, secret: Secret) returns (r: string)
    ensures r == h + Stream(PairsOf(SortedKeys(secret.Keys), secret))
  {
    var keys := KeysInOrder(secret);
    r := WritePairs(h, keys, secret);
  }

  lemma StreamSnoc(h: string, pairs: seq<Pair>, p: Pair)
    ensures h + Stream(pairs + [p]) == h + Stream(pairs) + p.key + "\0" + p.value + "\0"
  {
    StreamConcat(pairs, [p]);
    assert Stream([p]) == Encode(p);
  }

  method WritePairs(h: string, keys: seq<string>, secret: Secret) returns (r: string)
    requires forall k :: k in keys ==> k in secret
    ensures r == h + Stream(PairsOf(keys, secret))
  {
    r := h;
    ghost var pairs := PairsOf(keys, secret);
    for i := 0 to |keys|
      invariant r == h + Stream(pairs[..i])
    {
      assert pairs[..i + 1] == pairs[..i] + [pairs[i]];
      StreamSnoc(h, pairs[..i], pairs[i]);
      r := r + keys[i];
      r := r + "\0";
      r := r + secret[keys[i]];
      r := r + "\0";
    }
    assert pairs[..|keys|] == pairs;
  }

  lemma StreamAll(secrets: seq<Secret>)
    requires secrets != []
    ensures Stream(AllPairs(secrets)) ==
            Stream(PairsOf(SortedKeys(secrets[0].Keys), secrets[0])) + Stream(AllPairs(secrets[1..]))
  {
    StreamConcat(PairsOf(SortedKeys(secrets[0].Keys), secrets[0]), AllPairs(secrets[1..]));
  }

  lemma Associate(a: string, b: string, c: string)
    ensures a + b + c == a + (b + c)
  {
  }

  method ConfigPreimage(conf: string, secrets: seq<Secret>) returns (h: string)
    ensures h == Preimage(conf, secrets)
  {
    h := conf;
    for i := 0 to |secrets|
      invariant h + Stream(AllPairs(secrets[i..])) == Preimage(conf, secrets)
    {
      StreamAll(secrets[i..]);
      assert secrets[i..][0] == secrets[i] && secrets[i..][1..] == secrets[i + 1..];
      Associate(h, Stream(PairsOf(SortedKeys(secrets[i].Keys), secrets[i])), Stream(AllPairs(secrets[i + 1..])));
      h := WriteSecret(h, secrets[i]);
    }
    assert h + Stream(AllPairs([])) == h;
  }

  // ----- equal preimages mean equal contents -----

  predicate NulFree(s: string) {
    '\0' !in s
  }

  predicate NulFreePairs(pairs: seq<Pair>) {
    forall i :: 0 <= i < |pairs| ==> NulFree(pairs[i].key) && NulFree(pairs[i].value)
  }

  predicate NulFreeSecret(secret: Secret) {
    forall k :: k in secret ==> NulFree(k) && NulFree(secret[k])
  }

  predicate NulFreeSecrets(secrets: seq<Secret>) {
    forall i :: 0 <= i < |secrets| ==> NulFreeSecret(secrets[i])
  }

  lemma CutAtNul(a: string, x: string, b: string, y: string)
    requires NulFree(a) && NulFree(b) && a + "\0" + x == b + "\0" + y
    ensures a == b && x == y
  {
    UptoIs(a, '\0', x);
    UptoIs(b, '\0', y);
    assert (a + "\0" + x)[..|a|] == a && (b + "\0" + y)[..|b|] == b;
    assert (a + "\0" + x)[|a| + 1..] == x && (b + "\0" + y)[|b| + 1..] == y;
  }

  function KeysAndValues(pairs: seq<Pair>): seq<string> {
    if pairs == [] then [] else [pairs[0].key, pairs[0].value] + KeysAndValues(pairs[1..])
  }

  lemma PrependTwo(a: string, b: string, rest: seq<string>)
    ensures [a] + ([b] + rest) == [a, b] + rest
  {
  }

  lemma PairReadsBack(p: Pair, rest: string)
    requires NulFree(p.key) && NulFree(p.value)
    ensures Pieces(Encode(p) + rest, '\0') == [p.key, p.value] + Pieces(rest, '\0')
  {
    var first, second := p.key + ['\0'], p.value + ['\0'];
    Associate(first, second, rest);
    PiecesCons(p.key, '\0', second + rest);
    PiecesCons(p.value, '\0', rest);
    PrependTwo(p.key, p.value, Pieces(rest, '\0'));
  }

  /** Split at its NULs, what is written for secrets is their keys and values by turns. */
  lemma {:induction false} StreamReadsBack(pairs: seq<Pair>)
    requires NulFreePairs(pairs)
    ensures Pieces(Stream(pairs), '\0') == KeysAndValues(pairs) + [""]
  {
    if pairs != [] {
      PairReadsBack(pairs[0], Stream(pairs[1..]));
      StreamReadsBack(pairs[1..]);
    }
  }

  lemma SplitStream(conf: string, pairs: seq<Pair>)
    requires pairs != []
    ensures conf + Stream(pairs) == (conf + pairs[0].key) + "\0" + (pairs[0].value + "\0" + Stream(pairs[1..]))
  {
  }

  /** Equal streams behind two texts: the texts with their first keys, the first values and the rest agree. */
  lemma FirstPairAgrees(c: string, a: seq<Pair>, d: string, b: seq<Pair>)
    requires NulFree(c) && NulFree(d) && NulFreePairs(a) && NulFreePairs(b) && a != [] && b != []
    requires c + Stream(a) == d + Stream(b)
    ensures c + a[0].key == d + b[0].key && a[0].value == b[0].value && Stream(a[1..]) == Stream(b[1..])
  {
    SplitStream(c, a);
    SplitStream(d, b);
    CutAtNul(c + a[0].key, a[0].value + "\0" + Stream(a[1..]), d + b[0].key, b[0].value + "\0" + Stream(b[1..]));
    CutAtNul(a[0].value, Stream(a[1..]), b[0].value, Stream(b[1..]));
  }

  lemma {:induction false} StreamIsInjective(a: seq<Pair>, b: seq<Pair>)
    requires NulFreePairs(a) && NulFreePairs(b) && Stream(a) == Stream(b)
    ensures a == b
  {
    if a != [] && b != [] {
      assert "" + Stream(a) == Stream(a) && "" + Stream(b) == Stream(b);
      FirstPairAgrees("", a, "", b);
      assert "" + a[0].key == a[0].key && "" + b[0].key == b[0].key;
      StreamIsInjective(a[1..], b[1..]);
      assert a == [a[0]] + a[1..] && b == [b[0]] + b[1..];
    }
  }

  predicate SameKeys(a: seq<Pair>, b: seq<Pair>) {
    |a| == |b| && forall i :: 0 <= i < |a| ==> a[i].key == b[i].key
  }

  lemma SameTail(c: string, d: string, k: string)
    requires c + k == d + k
    ensures c == d
  {
    assert |c + k| == |d + k|;
    assert (c + k)[..|c|] == c && (d + k)[..|d|] == d;
  }

  lemma SameKeysSamePairs(c: string, a: seq<Pair>, d: string, b: seq<Pair>)
    requires NulFree(c) && NulFree(d) && NulFreePairs(a) && NulFreePairs(b) && SameKeys(a, b)
    requires c + Stream(a) == d + Stream(b)
    ensures c == d && a == b
  {
    if a == [] {
      assert c + Stream(a) == c && d + Stream(b) == d;
    } else {
      FirstPairAgrees(c, a, d, b);
      SameTail(c, d, a[0].key);
      StreamIsInjective(a[1..], b[1..]);
      assert a == [a[0]] + a[1..] && b == [b[0]] + b[1..];
    }
  }

  /** Newline-ended texts in front of newline-free keys can be told apart from them. */
  lemma LastNewline(c: string, k: string, d: string, l: string)
    requires c != "" && WholeLines(c) && d != "" && WholeLines(d) && OneLiner(k) && OneLiner(l) && c + k == d + l
    ensures c == d && k == l
  {
    var text := c + k;
    assert text[|c| - 1] == '\n' && text[|d| - 1] == (d + l)[|d| - 1] == '\n';
    assert forall i :: |c| <= i < |text| ==> text[i] == k[i - |c|];
    assert forall i :: |d| <= i < |text| ==> text[i] == l[i - |d|];
    assert |c| == |d|;
    assert text[..|c|] == c && (d + l)[..|d|] == d;
    assert text[|c|..] == k && (d + l)[|d|..] == l;
  }

  predicate OneLineKeys(pairs: seq<Pair>) {
    forall i :: 0 <= i < |pairs| ==> OneLiner(pairs[i].key)
  }

  /** Behind newline-ended texts no assumption on the keys is needed, besides being one line each. */
  lemma WholeLinesSamePairs(c: string, a: seq<Pair>, d: string, b: seq<Pair>)
    requires NulFree(c) && NulFree(d) && NulFreePairs(a) && NulFreePairs(b) && OneLineKeys(a) && OneLineKeys(b)
    requires c != "" && WholeLines(c) && d != "" && WholeLines(d)
    requires c + Stream(a) == d + Stream(b)
    ensures c == d && a == b
  {
    if a == [] {
      NulOnlyInPairs(c, a, d, b);
    } else if b == [] {
      NulOnlyInPairs(d, b, c, a);
    } else {
      FirstPairAgrees(c, a, d, b);
      LastNewline(c, a[0].key, d, b[0].key);
      StreamIsInjective(a[1..], b[1..]);
      assert a == [a[0]] + a[1..] && b == [b[0]] + b[1..];
    }
  }

  lemma NulOnlyInPairs(c: string, a: seq<Pair>, d: string, b: seq<Pair>)
    requires NulFree(c) && c + Stream(a) == d + Stream(b) && a == []
    ensures b == [] && c == d
  {
    assert c + Stream(a) == c;
    if b == [] {
      assert d + Stream(b) == d;
    } else {
      SplitStream(d, b);
      assert false;
    }
  }

  lemma {:induction false} PairsAreNulFree(secrets: seq<Secret>)
    requires NulFreeSecrets(secrets)
    ensures NulFreePairs(AllPairs(secrets))
  {
    if secrets != [] {
      PairsAreNulFree(secrets[1..]);
      PairsOfSecretAreNulFree(secrets[0]);
      NulFreeConcat(PairsOf(SortedKeys(secrets[0].Keys), secrets[0]), AllPairs(secrets[1..]));
    }
  }

  lemma PairsOfSecretAreNulFree(secret: Secret)
    requires NulFreeSecret(secret)
    ensures NulFreePairs(PairsOf(SortedKeys(secret.Keys), secret))
  {
    var keys := SortedKeys(secret.Keys);
    forall i | 0 <= i < |keys| ensures NulFree(keys[i]) && NulFree(secret[keys[i]]) {
      assert keys[i] in keys;
    }
  }

  lemma NulFreeConcat(a: seq<Pair>, b: seq<Pair>)
    requires NulFreePairs(a) && NulFreePairs(b)
    ensures NulFreePairs(a + b)
  {
  }

  predicate SameKeySets(a: seq<Secret>, b: seq<Secret>) {
    |a| == |b| && forall i :: 0 <= i < |a| ==> a[i].Keys == b[i].Keys
  }

  lemma SameKeysConcat(p: seq<Pair>, x: seq<Pair>, q: seq<Pair>, y: seq<Pair>)
    requires SameKeys(p, q) && SameKeys(x, y)
    ensures SameKeys(p + x, q + y)
  {
  }

  lemma SameKeysOfSecret(a: Secret, b: Secret)
    requires a.Keys == b.Keys
    ensures SameKeys(PairsOf(SortedKeys(a.Keys), a), PairsOf(SortedKeys(b.Keys), b))
  {
  }

  lemma {:induction false} SameKeySetsSameKeys(a: seq<Secret>, b: seq<Secret>)
    requires SameKeySets(a, b)
    ensures SameKeys(AllPairs(a), AllPairs(b))
  {
    if a != [] {
      SameKeySetsSameKeys(a[1..], b[1..]);
      SameKeysOfSecret(a[0], b[0]);
      SameKeysConcat(PairsOf(SortedKeys(a[0].Keys), a[0]), AllPairs(a[1..]),
                     PairsOf(SortedKeys(b[0].Keys), b[0]), AllPairs(b[1..]));
    }
  }

  lemma SamePairsSameSecret(a: Secret, b: Secret)
    requires a.Keys == b.Keys && PairsOf(SortedKeys(a.Keys), a) == PairsOf(SortedKeys(b.Keys), b)
    ensures a == b
  {
    var keys := SortedKeys(a.Keys);
    forall k | k in a ensures a[k] == b[k] {
      assert k in keys;
      var i :| 0 <= i < |keys| && keys[i] == k;
      assert PairsOf(keys, a)[i] == PairsOf(keys, b)[i];
    }
  }

  lemma SameLengthSplit(p: seq<Pair>, x: seq<Pair>, q: seq<Pair>, y: seq<Pair>)
    requires |p| == |q| && p + x == q + y
    ensures p == q && x == y
  {
    assert (p + x)[..|p|] == p && (q + y)[..|q|] == q;
    assert (p + x)[|p|..] == x && (q + y)[|q|..] == y;
  }

  lemma {:induction false} SamePairsSameSecrets(a: seq<Secret>, b: seq<Secret>)
    requires SameKeySets(a, b) && AllPairs(a) == AllPairs(b)
    ensures a == b
  {
    if a != [] {
      SameKeysOfSecret(a[0], b[0]);
      SameLengthSplit(PairsOf(SortedKeys(a[0].Keys), a[0]), AllPairs(a[1..]),
                      PairsOf(SortedKeys(b[0].Keys), b[0]), AllPairs(b[1..]));
      SamePairsSameSecret(a[0], b[0]);
      SamePairsSameSecrets(a[1..], b[1..]);
      SameHeadSameTail(a, b);
    }
  }

  lemma SameHeadSameTail(a: seq<Secret>, b: seq<Secret>)
    requires a != [] && b != [] && a[0] == b[0] && a[1..] == b[1..]
    ensures a == b
  {
    assert a == [a[0]] + a[1..] && b == [b[0]] + b[1..];
  }

  /** With the same keys in each secret and no NUL anywhere, the preimage determines the configuration and
      every secret. */
  lemma PreimageDetermines(c: string, a: seq<Secret>, d: string, b: seq<Secret>)
    requires NulFree(c) && NulFree(d) && NulFreeSecrets(a) && NulFreeSecrets(b) && SameKeySets(a, b)
    ensures Preimage(c, a) == Preimage(d, b) <==> c == d && a == b
  {
    PairsAreNulFree(a);
    PairsAreNulFree(b);
    SameKeySetsSameKeys(a, b);
    if Preimage(c, a) == Preimage(d, b) {
      SameKeysSamePairs(c, AllPairs(a), d, AllPairs(b));
      SamePairsSameSecrets(a, b);
    }
  }

  /** A rendered configuration ends its last line, and the keys of a Secret have none: then the preimage
      determines the configuration and the whole list of keys and values, whichever keys there are. */
  lemma PreimageDeterminesPairs(c: string, a: seq<Secret>, d: string, b: seq<Secret>)
    requires NulFree(c) && NulFree(d) && NulFreeSecrets(a) && NulFreeSecrets(b)
    requires c != "" && WholeLines(c) && d != "" && WholeLines(d)
    requires OneLineKeys(AllPairs(a)) && OneLineKeys(AllPairs(b))
    ensures Preimage(c, a) == Preimage(d, b) <==> c == d && AllPairs(a) == AllPairs(b)
  {
    PairsAreNulFree(a);
    PairsAreNulFree(b);
    if Preimage(c, a) == Preimage(d, b) {
      WholeLinesSamePairs(c, AllPairs(a), d, AllPairs(b));
    }
  }

  /** The same number of secrets, with as many entries each. */
  predicate SameSizes(a: seq<Secret>, b: seq<Secret>) {
    |a| == |b| && forall i :: 0 <= i < |a| ==> |a[i]| == |b[i]|
  }

  lemma SizeOfPairs(secret: Secret)
    ensures |PairsOf(SortedKeys(secret.Keys), secret)| == |secret|
  {
    var keys := SortedKeys(secret.Keys);
    assert |keys| == |multiset(keys)| == |multiset(secret.Keys)| == |secret.Keys|;
  }

  lemma PairsTellList(x: seq<string>, a: Secret, y: seq<string>, b: Secret)
    requires (forall k :: k in x ==> k in a) && (forall k :: k in y ==> k in b) && PairsOf(x, a) == PairsOf(y, b)
    ensures x == y
  {
    forall i | 0 <= i < |x| ensures x[i] == y[i] {
      assert PairsOf(x, a)[i] == PairsOf(y, b)[i];
    }
  }

  lemma SameListSameSet(a: set<string>, b: set<string>)
    requires SortedKeys(a) == SortedKeys(b)
    ensures a == b
  {
    assert multiset(SortedKeys(a)) == multiset(a) && multiset(SortedKeys(b)) == multiset(b);
    forall k ensures k in a <==> k in b {
      assert k in a <==> k in multiset(a);
      assert k in b <==> k in multiset(b);
    }
  }

  lemma PairsTellKeys(a: Secret, b: Secret)
    requires PairsOf(SortedKeys(a.Keys), a) == PairsOf(SortedKeys(b.Keys), b)
    ensures a == b
  {
    PairsTellList(SortedKeys(a.Keys), a, SortedKeys(b.Keys), b);
    SameListSameSet(a.Keys, b.Keys);
    SamePairsSameSecret(a, b);
  }

  lemma {:induction false} SameSizesSameSecrets(a: seq<Secret>, b: seq<Secret>)
    requires SameSizes(a, b) && AllPairs(a) == AllPairs(b)
    ensures a == b
  {
    if a != [] {
      SizeOfPairs(a[0]);
      SizeOfPairs(b[0]);
      SameLengthSplit(PairsOf(SortedKeys(a[0].Keys), a[0]), AllPairs(a[1..]),
                      PairsOf(SortedKeys(b[0].Keys), b[0]), AllPairs(b[1..]));
      PairsTellKeys(a[0], b[0]);
      SameSizesSameSecrets(a[1..], b[1..]);
      SameHeadSameTail(a, b);
    }
  }

  /** With as many entries in each secret, behind configurations that end their last line, the preimage
      determines configuration and secrets, whichever keys there are. */
  lemma PreimageDeterminesBySize(c: string, a: seq<Secret>, d: string, b: seq<Secret>)
    requires NulFree(c) && NulFree(d) && NulFreeSecrets(a) && NulFreeSecrets(b)
    requires c != "" && WholeLines(c) && d != "" && WholeLines(d)
    requires OneLineKeys(AllPairs(a)) && OneLineKeys(AllPairs(b)) && SameSizes(a, b)
    ensures Preimage(c, a) == Preimage(d, b) <==> c == d && a == b
  {
    PreimageDeterminesPairs(c, a, d, b);
    if AllPairs(a) == AllPairs(b) {
      SameSizesSameSecrets(a, b);
    }
  }

  // ----- what the preimage does not tell -----

  /** Every key of one secret comes before every key of the other. */
  ghost predicate Before(a: Secret, b: Secret) {
    forall k, l :: k in a && l in b ==> Le(k, l) && k != l
  }

  /** Two sorted lists, one wholly before the other, are one sorted list. */
  lemma ListsInTurn(x: seq<string>, y: seq<string>, z: seq<string>)
    requires IsSorted(x) && IsSorted(y) && IsSorted(z) && Distinct(x) && Distinct(y) && Distinct(z)
    requires forall i, j :: 0 <= i < |x| && 0 <= j < |y| ==> Le(x[i], y[j]) && x[i] != y[j]
    requires forall k :: k in z <==> k in x || k in y
    ensures z == x + y
  {
    forall i, j | 0 <= i < j < |x + y| ensures Le((x + y)[i], (x + y)[j]) && (x + y)[i] != (x + y)[j] {
    }
    SameMembers(x + y, z);
    SortedIsUnique(x + y, z);
  }

  lemma KeysInTurn(a: Secret, b: Secret)
    requires Before(a, b)
    ensures SortedKeys((a + b).Keys) == SortedKeys(a.Keys) + SortedKeys(b.Keys)
  {
    ListsOfSecrets(SortedKeys(a.Keys), a, SortedKeys(b.Keys), b, SortedKeys((a + b).Keys));
  }

  lemma ListsOfSecrets(x: seq<string>, a: Secret, y: seq<string>, b: Secret, z: seq<string>)
    requires IsSorted(x) && IsSorted(y) && IsSorted(z) && Distinct(x) && Distinct(y) && Distinct(z) && Before(a, b)
    requires forall k :: k in x <==> k in a.Keys
    requires forall k :: k in y <==> k in b.Keys
    requires forall k :: k in z <==> k in (a + b).Keys
    ensures z == x + y
  {
    forall i, j | 0 <= i < |x| && 0 <= j < |y| ensures Le(x[i], y[j]) && x[i] != y[j] {
      assert x[i] in x && y[j] in y;
    }
    ListsInTurn(x, y, z);
  }

  lemma PairsOfLists(x: seq<string>, a: Secret, y: seq<string>, b: Secret)
    requires (forall k :: k in x ==> k in a && k !in b) && (forall k :: k in y ==> k in b)
    ensures forall k :: k in x + y ==> k in a + b
    ensures PairsOf(x + y, a + b) == PairsOf(x, a) + PairsOf(y, b)
  {
  }

  lemma PairsInTurn(a: Secret, b: Secret)
    requires Before(a, b)
    ensures PairsOf(SortedKeys((a + b).Keys), a + b) == PairsOf(SortedKeys(a.Keys), a) + PairsOf(SortedKeys(b.Keys), b)
  {
    KeysInTurn(a, b);
    PairsOfLists(SortedKeys(a.Keys), a, SortedKeys(b.Keys), b);
  }

  lemma StreamOfTwo(a: Secret, b: Secret)
    ensures Stream(AllPairs([a, b])) ==
            Stream(PairsOf(SortedKeys(a.Keys), a)) + Stream(PairsOf(SortedKeys(b.Keys), b))
  {
    StreamAll([a, b]);
    assert [a, b][1..] == [b];
    StreamAll([b]);
    assert [b][1..] == [];
    EmptyTail(Stream(PairsOf(SortedKeys(b.Keys), b)));
  }

  lemma EmptyTail(text: string)
    ensures text + Stream(AllPairs([])) == text
  {
  }

  /** Nothing marks where a secret ends: keys in order may be in one secret or in two, behind any configuration. */
  lemma SecretsRunTogether(conf: string, a: Secret, b: Secret)
    requires Before(a, b)
    ensures Preimage(conf, [a + b, map[]]) == Preimage(conf, [a, b])
  {
    var x, y := PairsOf(SortedKeys(a.Keys), a), PairsOf(SortedKeys(b.Keys), b);
    StreamOfTwo(a + b, map[]);
    StreamOfTwo(a, b);
    PairsInTurn(a, b);
    StreamConcat(x, y);
    SizeOfPairs(map[]);
    assert Stream(x + y) + "" == Stream(x + y);
  }

  lemma SingleKey(k: string, v: string)
    ensures AllPairs([map[k := v]]) == [Pair(k, v)]
  {
    var m := map[k := v];
    assert m.Keys == {k};
    SortedIsUnique([k], SortedKeys({k}));
    assert AllPairs([m]) == PairsOf(SortedKeys(m.Keys), m) + AllPairs([]);
  }

  /** Nothing marks the end of the configuration either, so the front of the first key may as well belong to it. */
  lemma PreimageIsAmbiguous(conf: string, front: string, key: string, value: string)
    ensures Preimage(conf, [map[front + key := value]]) == Preimage(conf + front, [map[key := value]])
  {
    SingleKey(front + key, value);
    SingleKey(key, value);
    SplitStream(conf, [Pair(front + key, value)]);
    SplitStream(conf + front, [Pair(key, value)]);
    Associate(conf, front, key);
  }
}
