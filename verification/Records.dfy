/** The desired form of a declared record set and its comparison with what PowerDNS serves. */
module Records {
  import opened Types

  /** TTL and contents an RRSet resource asks for. */
  datatype Want = Want(ttl: int, records: seq<string>)

  function Desired(spec: RRSetSpec): Want {
    Want(match spec.ttl case Some(t) => t case None => 3600, spec.records)
  }

  function Contents(records: seq<Record>): (contents: seq<string>)
    ensures |contents| == |records|
    ensures forall i :: 0 <= i < |records| ==> contents[i] == records[i].content
  {
    if records == [] then [] else [records[0].content] + Contents(records[1..])
  }

  /** The payload of a REPLACE: every record enabled. */
  function Enabled(contents: seq<string>): (records: seq<Record>)
    ensures |records| == |contents|
    ensures forall i :: 0 <= i < |contents| ==> records[i] == Record(contents[i], false)
  {
    if contents == [] then [] else [Record(contents[0], false)] + Enabled(contents[1..])
  }

  /** Same TTL and the same contents, each as often; the disabled flag is not compared. */
  ghost predicate Serves(got: RRData, want: Want) {
    got.ttl == want.ttl && multiset(Contents(got.records)) == multiset(want.records)
  }

  lemma InstalledServes(want: Want, writer: Writer)
    ensures Serves(RRData(want.ttl, Enabled(want.records), writer), want)
  {
    assert Contents(Enabled(want.records)) == want.records;
  }

  /** One entry of the zone object PowerDNS returns. */
  datatype Entry = Entry(rk: RecKey, data: RRData)

  /** The first entry with that name and type exists and serves what is wanted. */
  ghost predicate FirstServes(entries: seq<Entry>, rk: RecKey, want: Want) {
    exists i :: 0 <= i < |entries| && entries[i].rk == rk && Serves(entries[i].data, want)
                && forall j :: 0 <= j < i ==> entries[j].rk != rk
  }

  function Count(counts: map<string, nat>, c: string): nat {
    if c in counts then counts[c] else 0
  }

  lemma SubMultisetOfEqualSize(a: multiset<string>, b: multiset<string>)
    requires a <= b && |a| == |b|
    ensures a == b
  {
    assert b == a + (b - a);
    assert |b - a| == 0;
  }

  lemma TakeOneMore(s: seq<string>, i: nat)
    requires i < |s|
    ensures multiset(s[..i + 1]) == multiset(s[..i]) + multiset{s[i]}
    ensures multiset(s[..i + 1]) <= multiset(s)
  {
    assert s[..i + 1] == s[..i] + [s[i]];
    assert s == s[..i + 1] + s[i + 1..];
  }

  /** The tally holds exactly these contents. */
  ghost predicate Owes(owed: map<string, nat>, m: multiset<string>) {
    forall c :: Count(owed, c) == m[c]
  }

  /** Tallies what is wanted. */
  method Tally(want: seq<string>) returns (owed: map<string, nat>)
    ensures Owes(owed, multiset(want))
  {
    owed := map[];
    for i := 0 to |want|
      invariant Owes(owed, multiset(want[..i]))
    {
      TakeOneMore(want, i);
      owed := owed[want[i] := Count(owed, want[i]) + 1];
    }
    assert want[..|want|] == want;
  }

  lemma PayOne(owed: map<string, nat>, paid: multiset<string>, want: multiset<string>, c: string)
    requires paid <= want && Owes(owed, want - paid)
    ensures Count(owed, c) == 0 ==> !(paid + multiset{c} <= want)
    ensures Count(owed, c) > 0 ==>
              paid + multiset{c} <= want && Owes(owed[c := Count(owed, c) - 1], want - (paid + multiset{c}))
  {
    assert Count(owed, c) == (want - paid)[c] == want[c] - paid[c];
    assert (paid + multiset{c})[c] == paid[c] + 1;
    if Count(owed, c) > 0 {
      var owed' := owed[c := Count(owed, c) - 1];
      forall d ensures Count(owed', d) == (want - (paid + multiset{c}))[d] {
        assert Count(owed, d) == (want - paid)[d];
      }
    }
  }

  /** The comparison loop: tally what is wanted, then pay it back with what is served. Stopping at the
      first content not owed, together with the length test, decides equality of the multisets. */
  method ContentsMatch(got: seq<string>, want: seq<string>) returns (same: bool)
    ensures same <==> multiset(got) == multiset(want)
  {
    assert |multiset(got)| == |got| && |multiset(want)| == |want|;
    if |got| != |want| { return false; }
    var owed: map<string, nat> := Tally(want);
    ghost var paid := multiset{};
    assert multiset(want) - paid == multiset(want);
    for j := 0 to |got|
      invariant paid == multiset(got[..j]) && paid <= multiset(want)
      invariant Owes(owed, multiset(want) - paid)
    {
      TakeOneMore(got, j);
      PayOne(owed, paid, multiset(want), got[j]);
      if Count(owed, got[j]) == 0 { return false; }
      owed := owed[got[j] := Count(owed, got[j]) - 1];
      paid := paid + multiset{got[j]};
    }
    assert got[..|got|] == got;
    SubMultisetOfEqualSize(multiset(got), multiset(want));
    return true;
  }

  /** Whether the returned zone already serves the desired record set. */
  method RRSetMatches(entries: seq<Entry>, rk: RecKey, want: Want) returns (matches: bool)
    ensures matches <==> FirstServes(entries, rk, want)
  {
    for i := 0 to |entries|
      invariant forall j :: 0 <= j < i ==> entries[j].rk != rk
    {
      var got := entries[i].data;
      if entries[i].rk == rk {
        if got.ttl != want.ttl { return false; }
        matches := ContentsMatch(Contents(got.records), want.records);
        return;
      }
    }
    return false;
  }

  /** The list is the record map of a zone, in some order. */
  ghost predicate Lists(entries: seq<Entry>, rrsets: map<RecKey, RRData>) {
    && (forall i :: 0 <= i < |entries| ==> entries[i].rk in rrsets && rrsets[entries[i].rk] == entries[i].data)
    && (forall rk :: rk in rrsets ==> Entry(rk, rrsets[rk]) in entries)
  }

  ghost predicate ZoneServes(rrsets: map<RecKey, RRData>, rk: RecKey, want: Want) {
    rk in rrsets && Serves(rrsets[rk], want)
  }

  /** The declared TTL, or 3600 where none is declared, and the declared records, each as often. */
  ghost predicate AsDeclared(spec: RRSetSpec, data: RRData) {
    && data.ttl == (if spec.ttl.Some? then spec.ttl.value else 3600)
    && multiset(Contents(data.records)) == multiset(spec.records)
  }

  /** The zone serves what the RRSet declares. */
  ghost predicate ServedAsDeclared(rrsets: map<RecKey, RRData>, rk: RecKey, spec: RRSetSpec) {
    rk in rrsets && AsDeclared(spec, rrsets[rk])
  }

  /** The comparison is with what is declared. */
  lemma DesiredIsDeclared(rrsets: map<RecKey, RRData>, rk: RecKey, spec: RRSetSpec)
    ensures ZoneServes(rrsets, rk, Desired(spec)) <==> ServedAsDeclared(rrsets, rk, spec)
  {
  }

  /** What is written for a declaration is its records in order, all enabled, under its TTL. */
  lemma WrittenAsDeclared(spec: RRSetSpec, writer: Writer)
    ensures var data := RRData(Desired(spec).ttl, Enabled(Desired(spec).records), writer);
            && AsDeclared(spec, data) && Contents(data.records) == spec.records
            && forall i :: 0 <= i < |data.records| ==> !data.records[i].disabled
  {
    assert Contents(Enabled(spec.records)) == spec.records;
  }

  /** The order in which PowerDNS lists a zone does not matter to the comparison. */
  lemma ListingOrderIsIrrelevant(entries: seq<Entry>, rrsets: map<RecKey, RRData>, rk: RecKey, want: Want)
    requires Lists(entries, rrsets)
    ensures FirstServes(entries, rk, want) <==> ZoneServes(rrsets, rk, want)
  {
    if ZoneServes(rrsets, rk, want) {
      assert Entry(rk, rrsets[rk]) in entries;
      var _ := FirstOf(entries, rk);
    }
  }

  lemma FirstOf(entries: seq<Entry>, rk: RecKey) returns (i: nat)
    requires exists j :: 0 <= j < |entries| && entries[j].rk == rk
    ensures i < |entries| && entries[i].rk == rk && forall j :: 0 <= j < i ==> entries[j].rk != rk
  {
    i := 0;
    while entries[i].rk != rk
      invariant i < |entries| && forall j :: 0 <= j < i ==> entries[j].rk != rk
      decreases |entries| - i
    {
      i := i + 1;
    }
  }
}
