/** Domain names and the subdomain test of section 3.1 of RFC 1034. */
module Names {

  predicate HasSuffix(s: string, suffix: string) {
    |suffix| <= |s| && s[|s| - |suffix|..] == suffix
  }

  /** The name is the zone's apex or sits beneath it. */
  predicate NameInZone(name: string, zone: string) {
    name == zone || HasSuffix(name, "." + zone)
  }

  /** Fully qualified: every label, the last one included, is closed by a dot. */
  predicate Qualified(name: string) {
    name == "" || name[|name| - 1] == '.'
  }

  /** The labels of a qualified name, leftmost first. */
  function Labels(name: string): (labels: seq<string>)
    requires Qualified(name)
    ensures labels == [] <==> name == ""
  {
    if name == "" then []
    else
      Push(name[0], Labels(name[1..]))
  }

  /** The labels after one more character on the left. */
  function Push(c: char, labels: seq<string>): (r: seq<string>)
    requires c == '.' || labels != []
    ensures r != []
  {
    if c == '.' then [""] + labels else [[c] + labels[0]] + labels[1..]
  }

  function Join(labels: seq<string>): (name: string)
    ensures Qualified(name)
  {
    if labels == [] then "" else labels[0] + "." + Join(labels[1..])
  }

  lemma {:induction false} JoinLabels(name: string)
    requires Qualified(name)
    ensures Join(Labels(name)) == name
  {
    if name != "" {
      var rest := Labels(name[1..]);
      JoinLabels(name[1..]);
      assert name == [name[0]] + name[1..];
      JoinPush(name[0], rest);
    }
  }

  lemma JoinPush(c: char, labels: seq<string>)
    requires c == '.' || labels != []
    ensures Join(Push(c, labels)) == [c] + Join(labels)
  {
    if c == '.' {
      JoinCons("", labels);
    } else {
      JoinCons([c] + labels[0], labels[1..]);
    }
  }

  lemma JoinCons(first: string, rest: seq<string>)
    ensures Join([first] + rest) == first + "." + Join(rest)
  {
    assert ([first] + rest)[1..] == rest;
  }

  lemma PushConcat(c: char, a: seq<string>, b: seq<string>)
    requires c == '.' || a != []
    ensures Push(c, a + b) == Push(c, a) + b
  {
  }

  /** Splitting at a dot splits the label list. */
  lemma {:induction false} LabelsOfConcat(p: string, q: string)
    requires Qualified(p) && Qualified(q)
    ensures Qualified(p + q)
    ensures Labels(p + q) == Labels(p) + Labels(q)
  {
    if p == "" {
      assert p + q == q;
    } else {
      assert (p + q)[0] == p[0] && (p + q)[1..] == p[1..] + q;
      LabelsOfConcat(p[1..], q);
      PushConcat(p[0], Labels(p[1..]), Labels(q));
    }
  }

  lemma {:induction false} JoinOfConcat(a: seq<string>, b: seq<string>)
    ensures Join(a + b) == Join(a) + Join(b)
  {
    if a == [] {
      assert a + b == b;
    } else {
      assert (a + b)[1..] == a[1..] + b;
      JoinOfConcat(a[1..], b);
    }
  }

  predicate LabelSuffix(zone: seq<string>, name: seq<string>) {
    |zone| <= |name| && name[|name| - |zone|..] == zone
  }

  /** A name beneath a zone is some labels, the last one closed, followed by the zone. */
  lemma SplitBeneath(name: string, zone: string) returns (p: string)
    requires HasSuffix(name, "." + zone)
    ensures name == p + zone && p != "" && Qualified(p)
  {
    p := name[..|name| - |zone|];
    assert name[|name| - |zone| - 1..] == "." + zone;
    assert p[|p| - 1] == name[|name| - |zone| - 1] == '.';
    assert name[|name| - |zone|..] == ("." + zone)[1..] == zone;
  }

  lemma BeneathEndsWithLabels(name: string, zone: string)
    requires Qualified(name) && Qualified(zone) && NameInZone(name, zone)
    ensures LabelSuffix(Labels(zone), Labels(name))
  {
    if name != zone {
      var p := SplitBeneath(name, zone);
      LabelsOfConcat(p, zone);
    }
  }

  lemma LabelsEndBeneath(name: string, zone: string)
    requires Qualified(name) && Qualified(zone) && LabelSuffix(Labels(zone), Labels(name))
    ensures NameInZone(name, zone)
  {
    var ln, lz := Labels(name), Labels(zone);
    var a := ln[..|ln| - |lz|];
    assert ln == a + lz;
    JoinOfConcat(a, lz);
    JoinLabels(name);
    JoinLabels(zone);
    if a != [] {
      EndsBeneath(Join(a), zone);
    }
  }

  lemma EndsBeneath(p: string, zone: string)
    requires p != "" && p[|p| - 1] == '.'
    ensures NameInZone(p + zone, zone)
  {
    assert (p + zone)[|p| - 1..] == "." + zone;
  }

  /** The string test is the label test: the zone's labels end the name's labels. */
  lemma NameInZoneIsLabelSuffix(name: string, zone: string)
    requires Qualified(name) && Qualified(zone)
    ensures NameInZone(name, zone) <==> LabelSuffix(Labels(zone), Labels(name))
  {
    if NameInZone(name, zone) {
      BeneathEndsWithLabels(name, zone);
    }
    if LabelSuffix(Labels(zone), Labels(name)) {
      LabelsEndBeneath(name, zone);
    }
  }

  lemma LabelSuffixTransitive(c: seq<string>, b: seq<string>, a: seq<string>)
    requires LabelSuffix(c, b) && LabelSuffix(b, a)
    ensures LabelSuffix(c, a)
  {
    assert a[|a| - |c|..] == a[|a| - |b|..][|b| - |c|..];
  }

  /** The subdomain relation is a partial order on qualified names. */
  lemma NameInZoneIsPartialOrder(a: string, b: string, c: string)
    requires Qualified(a) && Qualified(b) && Qualified(c)
    ensures NameInZone(a, a)
    ensures NameInZone(a, b) && NameInZone(b, c) ==> NameInZone(a, c)
    ensures NameInZone(a, b) && NameInZone(b, a) ==> a == b
  {
    assert NameInZone(a, b) && a != b ==> |b| < |a|;
    if NameInZone(a, b) && NameInZone(b, c) {
      NameInZoneIsLabelSuffix(a, b);
      NameInZoneIsLabelSuffix(b, c);
      NameInZoneIsLabelSuffix(a, c);
      LabelSuffixTransitive(Labels(c), Labels(b), Labels(a));
    }
  }

  predicate LabelChar(c: char) {
    'a' <= c <= 'z' || '0' <= c <= '9' || c == '_'
  }

  predicate Label(l: string) {
    l != "" && LabelChar(l[0]) && forall i :: 0 < i < |l| ==> LabelChar(l[i]) || l[i] == '-'
  }

  /** The CRD's pattern for zone names: one or more labels, each closed by a dot. */
  ghost predicate ZoneNamePattern(s: string) {
    exists labels: seq<string> :: labels != [] && (forall l :: l in labels ==> Label(l)) && s == Join(labels)
  }

  /** The CRD's pattern for record names: a zone name, or a wildcard label before one. */
  ghost predicate RecordNamePattern(s: string) {
    ZoneNamePattern(s) || (|s| >= 2 && s[..2] == "*." && ZoneNamePattern(s[2..]))
  }

  /** Every name the CRDs admit is qualified, so the label reading applies to it. */
  lemma PatternsAreQualified(s: string)
    requires RecordNamePattern(s)
    ensures Qualified(s) && s != ""
  {
    if ZoneNamePattern(s) {
      var labels: seq<string> :| labels != [] && (forall l :: l in labels ==> Label(l)) && s == Join(labels);
      assert Label(labels[0]);
    } else {
      var t := s[2..];
      var labels: seq<string> :| labels != [] && (forall l :: l in labels ==> Label(l)) && t == Join(labels);
      assert Label(labels[0]);
      assert s[|s| - 1] == t[|t| - 1];
    }
  }
}
