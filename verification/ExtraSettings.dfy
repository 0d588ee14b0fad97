/** The user-supplied block of pdns.conf: what is accepted, what is rendered, and what a reader of the file
    gets back. */
module ExtraSettings {
  import opened Types
  import opened Sorting
  import opened TextLines

  // ----- which entries are accepted -----

  datatype Violation = BadKey(key: string) | ManagedKey(key: string) | MultilineValue(key: string)

  predicate LowerOrDigit(c: char) {
    'a' <= c <= 'z' || '0' <= c <= '9'
  }

  /** The pattern `^[a-z0-9][a-z0-9-]*$`. */
  predicate KeyPattern(key: string) {
    key != "" && LowerOrDigit(key[0]) && forall i :: 0 <= i < |key| ==> LowerOrDigit(key[i]) || key[i] == '-'
  }

  /** The settings the operator keeps for itself: single names, and a family by prefix. */
  datatype Rules = Rules(reserved: set<string>, prefix: string)

  function OperatorRules(): Rules {
    Rules({"launch", "local-address", "local-port", "webserver", "webserver-address", "webserver-port",
           "webserver-allow-from", "api", "api-key", "default-soa-content"}, "gpgsql-")
  }

  predicate Managed(rules: Rules, key: string) {
    key in rules.reserved || rules.prefix <= key
  }

  function ViolationOf(rules: Rules, key: string, value: string): Option<Violation> {
    if !KeyPattern(key) then Some(BadKey(key))
    else if Managed(rules, key) then Some(ManagedKey(key))
    else if '\r' in value || '\n' in value then Some(MultilineValue(key))
    else None
  }

  function Accepted(rules: Rules, extra: map<string, string>): map<string, string> {
    map k | k in extra && ViolationOf(rules, k, extra[k]).None? :: extra[k]
  }

  /** A key may be used if it is made of lower-case letters, digits and dashes and does not begin with a dash. */
  lemma KeyPatternByChars(key: string)
    ensures KeyPattern(key) <==>
            key != "" && key[0] != '-' && forall c :: c in key ==> 'a' <= c <= 'z' || '0' <= c <= '9' || c == '-'
  {
    if forall c :: c in key ==> 'a' <= c <= 'z' || '0' <= c <= '9' || c == '-' {
      forall i | 0 <= i < |key| ensures LowerOrDigit(key[i]) || key[i] == '-' {
        assert key[i] in key;
      }
    }
  }

  /** The names the operator refuses, whatever their value, and that it refuses no other well-made key on one line. */
  lemma OperatorRefuses(key: string, value: string)
    ensures key == "launch" || key == "local-address" || key == "local-port" || key == "webserver"
            || key == "webserver-address" || key == "webserver-port" || key == "webserver-allow-from" || key == "api"
            || key == "api-key" || key == "default-soa-content" || (|key| >= 7 && key[..7] == "gpgsql-") ==>
              ViolationOf(OperatorRules(), key, value).Some?
    ensures KeyPattern(key) && '\r' !in value && '\n' !in value
            && key != "launch" && key != "local-address" && key != "local-port" && key != "webserver"
            && key != "webserver-address" && key != "webserver-port" && key != "webserver-allow-from" && key != "api"
            && key != "api-key" && key != "default-soa-content" && !(|key| >= 7 && key[..7] == "gpgsql-") ==>
              ViolationOf(OperatorRules(), key, value).None?
  {
  }

  // ----- the file as lines -----

  datatype Line = Comment(text: string) | Setting(key: string, value: string)

  function Text(line: Line): string {
    match line
    case Comment(text) => "#" + text
    case Setting(key, value) => key + "=" + value
  }

  function Texts(lines: seq<Line>): (r: seq<string>)
    ensures |r| == |lines| && forall i :: 0 <= i < |r| ==> r[i] == Text(lines[i])
  {
    seq(|lines|, i requires 0 <= i < |lines| => Text(lines[i]))
  }

  function Render(lines: seq<Line>): string {
    Unlines(Texts(lines))
  }

  /** Reads one line: a comment, a line without `=`, or a setting split at the first `=`. */
  function ReadLine(line: string): map<string, string> {
    var n := Upto(line, '=');
    if |line| > 0 && line[0] == '#' then map[]
    else if n == |line| then map[]
    else map[line[..n] := line[n + 1..]]
  }

  /** Later lines win. */
  function ReadLines(lines: seq<string>): map<string, string> {
    if lines == [] then map[] else ReadLine(lines[0]) + ReadLines(lines[1..])
  }

  function Read(conf: string): map<string, string> {
    ReadLines(Lines(conf))
  }

  // ----- reading undoes rendering -----

  function MeaningOf(line: Line): map<string, string> {
    if line.Setting? then map[line.key := line.value] else map[]
  }

  function Meaning(lines: seq<Line>): map<string, string> {
    if lines == [] then map[] else MeaningOf(lines[0]) + Meaning(lines[1..])
  }

  predicate WellFormed(line: Line) {
    match line
    case Comment(text) => OneLiner(text)
    case Setting(key, value) => key != "" && key[0] != '#' && '=' !in key && OneLiner(key) && OneLiner(value)
  }

  predicate AllWellFormed(lines: seq<Line>) {
    forall i :: 0 <= i < |lines| ==> WellFormed(lines[i])
  }

  lemma ReadOneLine(line: Line)
    requires WellFormed(line)
    ensures ReadLine(Text(line)) == MeaningOf(line)
  {
    if line.Setting? {
      assert Text(line) == line.key + ['='] + line.value;
      UptoIs(line.key, '=', line.value);
      assert Text(line)[..|line.key|] == line.key && Text(line)[|line.key| + 1..] == line.value;
    }
  }

  lemma {:induction false} ReadTexts(lines: seq<Line>)
    requires AllWellFormed(lines)
    ensures ReadLines(Texts(lines)) == Meaning(lines)
  {
    if lines != [] {
      ReadOneLine(lines[0]);
      ReadTexts(lines[1..]);
      assert Texts(lines)[1..] == Texts(lines[1..]);
    }
  }

  lemma TextIsOneLine(line: Line)
    requires WellFormed(line)
    ensures OneLiner(Text(line))
  {
  }

  /** Rendering well-formed lines and reading the text back gives the settings, later ones winning. */
  lemma ReadUndoesRender(lines: seq<Line>)
    requires AllWellFormed(lines)
    ensures Read(Render(lines)) == Meaning(lines)
  {
    forall i | 0 <= i < |lines| ensures OneLiner(Texts(lines)[i]) {
      TextIsOneLine(lines[i]);
    }
    LinesOfUnlines(Texts(lines));
    ReadTexts(lines);
  }

  lemma MapsAssociate(a: map<string, string>, b: map<string, string>, c: map<string, string>)
    ensures a + b + c == a + (b + c)
  {
  }

  lemma {:induction false} ReadLinesConcat(a: seq<string>, b: seq<string>)
    ensures ReadLines(a + b) == ReadLines(a) + ReadLines(b)
  {
    if a == [] {
      assert a + b == b;
    } else {
      assert (a + b)[0] == a[0] && (a + b)[1..] == a[1..] + b;
      ReadLinesConcat(a[1..], b);
      MapsAssociate(ReadLine(a[0]), ReadLines(a[1..]), ReadLines(b));
    }
  }

  // ----- the block -----

  /** The lines of the accepted entries, keys in the given order. */
  function EntryLines(keys: seq<string>, accepted: map<string, string>): seq<Line> {
    if keys == [] then []
    else if keys[0] in accepted then [Setting(keys[0], accepted[keys[0]])] + EntryLines(keys[1..], accepted)
    else EntryLines(keys[1..], accepted)
  }

  lemma EntriesCons(k: string, rest: seq<string>, accepted: map<string, string>)
    ensures EntryLines([k] + rest, accepted) ==
            if k in accepted then [Setting(k, accepted[k])] + EntryLines(rest, accepted) else EntryLines(rest, accepted)
  {
    assert ([k] + rest)[1..] == rest;
  }

  lemma MeaningCons(line: Line, rest: seq<Line>)
    ensures Meaning([line] + rest) == MeaningOf(line) + Meaning(rest)
  {
    assert ([line] + rest)[1..] == rest;
  }

  function Header(): Line {
    Comment(" spec.extraSettings")
  }

  function WithHeader(entries: seq<Line>): seq<Line> {
    if entries == [] then [] else [Header()] + entries
  }

  ghost function Block(rules: Rules, extra: map<string, string>): string {
    Render(WithHeader(EntryLines(SortedKeys(extra.Keys), Accepted(rules, extra))))
  }

  predicate Renderable(accepted: map<string, string>) {
    forall k :: k in accepted ==> WellFormed(Setting(k, accepted[k]))
  }

  lemma AcceptedIsRenderable(rules: Rules, extra: map<string, string>)
    ensures Renderable(Accepted(rules, extra))
  {
    forall k | k in Accepted(rules, extra) ensures WellFormed(Setting(k, extra[k])) {
      assert forall c :: c in k ==> c != '=' && c != '\n';
    }
  }

  /** Read back, these entries are the accepted ones among these keys. */
  ghost predicate MeansAccepted(m: map<string, string>, keys: seq<string>, accepted: map<string, string>) {
    && (forall k :: k in m <==> k in keys && k in accepted)
    && (forall k :: k in m ==> m[k] == accepted[k])
  }

  lemma MeansOneMore(m: map<string, string>, key: string, rest: seq<string>, accepted: map<string, string>)
    requires MeansAccepted(m, rest, accepted)
    ensures key in accepted ==> MeansAccepted(map[key := accepted[key]] + m, [key] + rest, accepted)
    ensures key !in accepted ==> MeansAccepted(m, [key] + rest, accepted)
  {
  }

  lemma {:induction false} EntriesMean(keys: seq<string>, accepted: map<string, string>)
    requires Renderable(accepted)
    ensures AllWellFormed(EntryLines(keys, accepted))
    ensures MeansAccepted(Meaning(EntryLines(keys, accepted)), keys, accepted)
  {
    if keys != [] {
      var k, rest := keys[0], keys[1..];
      assert keys == [k] + rest;
      EntriesMean(rest, accepted);
      EntriesCons(k, rest, accepted);
      MeansOneMore(Meaning(EntryLines(rest, accepted)), k, rest, accepted);
      if k in accepted {
        MeaningCons(Setting(k, accepted[k]), EntryLines(rest, accepted));
      }
    }
  }

  lemma HeaderIsWellFormed()
    ensures WellFormed(Header()) && MeaningOf(Header()) == map[]
  {
    assert OneLiner(Header().text);
  }

  lemma HeaderMeansNothing(entries: seq<Line>)
    requires AllWellFormed(entries)
    ensures AllWellFormed(WithHeader(entries)) && Meaning(WithHeader(entries)) == Meaning(entries)
  {
    HeaderIsWellFormed();
    MeaningCons(Header(), entries);
  }

  lemma EntriesRoundTrip(keys: seq<string>, accepted: map<string, string>)
    requires Renderable(accepted) && forall k :: k in accepted ==> k in keys
    ensures Read(Render(WithHeader(EntryLines(keys, accepted)))) == accepted
  {
    var entries := EntryLines(keys, accepted);
    EntriesMean(keys, accepted);
    HeaderMeansNothing(entries);
    ReadUndoesRender(WithHeader(entries));
    assert Meaning(entries) == accepted;
  }

  /** Reading the rendered block yields exactly the accepted entries. */
  lemma BlockRoundTrip(rules: Rules, extra: map<string, string>)
    ensures Read(Block(rules, extra)) == Accepted(rules, extra)
  {
    AcceptedIsRenderable(rules, extra);
    EntriesRoundTrip(SortedKeys(extra.Keys), Accepted(rules, extra));
  }

  /** What is rendered and what is complained about are complements. */
  lemma RenderedOrRefused(rules: Rules, extra: map<string, string>, key: string)
    requires key in extra
    ensures key in Read(Block(rules, extra)) <==> ViolationOf(rules, key, extra[key]).None?
    ensures key in Read(Block(rules, extra)) ==> Read(Block(rules, extra))[key] == extra[key]
  {
    BlockRoundTrip(rules, extra);
  }

  // ----- the block depends on the accepted entries only -----

  function Filtered(keys: seq<string>, accepted: map<string, string>): seq<string> {
    if keys == [] then []
    else if keys[0] in accepted then [keys[0]] + Filtered(keys[1..], accepted)
    else Filtered(keys[1..], accepted)
  }

  lemma {:induction false} FilterKeepsMembers(keys: seq<string>, accepted: map<string, string>)
    ensures forall k :: k in Filtered(keys, accepted) <==> k in keys && k in accepted
  {
    if keys != [] {
      FilterKeepsMembers(keys[1..], accepted);
      assert keys == [keys[0]] + keys[1..];
    }
  }

  lemma {:induction false} FilterKeepsOrder(keys: seq<string>, accepted: map<string, string>)
    requires IsSorted(keys) && Distinct(keys)
    ensures IsSorted(Filtered(keys, accepted)) && Distinct(Filtered(keys, accepted))
  {
    if keys != [] {
      FilterKeepsOrder(keys[1..], accepted);
      FilterKeepsMembers(keys[1..], accepted);
      var tail := Filtered(keys[1..], accepted);
      forall j | 0 <= j < |tail| ensures Le(keys[0], tail[j]) && keys[0] != tail[j] {
        assert tail[j] in keys[1..];
      }
    }
  }

  /** Filtering the keys first gives the same lines. */
  lemma {:induction false} EntriesOfFiltered(keys: seq<string>, accepted: map<string, string>)
    ensures EntryLines(keys, accepted) == EntryLines(Filtered(keys, accepted), accepted)
  {
    if keys != [] {
      EntriesOfFiltered(keys[1..], accepted);
      assert keys == [keys[0]] + keys[1..];
      EntriesCons(keys[0], keys[1..], accepted);
      EntriesCons(keys[0], Filtered(keys[1..], accepted), accepted);
    }
  }

  lemma EntriesAreSorted(keys: set<string>, accepted: map<string, string>)
    requires accepted.Keys <= keys
    ensures EntryLines(SortedKeys(keys), accepted) == EntryLines(SortedKeys(accepted.Keys), accepted)
  {
    var all, some := SortedKeys(keys), SortedKeys(accepted.Keys);
    EntriesOfFiltered(all, accepted);
    FilterKeepsOrder(all, accepted);
    FilterKeepsMembers(all, accepted);
    SameMembers(Filtered(all, accepted), some);
    SortedIsUnique(Filtered(all, accepted), some);
  }

  /** Two settings maps render the same text exactly when their accepted entries agree. */
  lemma SameTextExactlyWhen(rules: Rules, a: map<string, string>, b: map<string, string>)
    ensures Block(rules, a) == Block(rules, b) <==> Accepted(rules, a) == Accepted(rules, b)
  {
    BlockRoundTrip(rules, a);
    BlockRoundTrip(rules, b);
    EntriesAreSorted(a.Keys, Accepted(rules, a));
    EntriesAreSorted(b.Keys, Accepted(rules, b));
  }

  /** Adding a rejected entry leaves the text as it was. */
  lemma RejectedEntryIsInvisible(rules: Rules, extra: map<string, string>, key: string, value: string)
    requires key !in extra && ViolationOf(rules, key, value).Some?
    ensures Block(rules, extra[key := value]) == Block(rules, extra)
  {
    assert Accepted(rules, extra[key := value]) == Accepted(rules, extra);
    SameTextExactlyWhen(rules, extra[key := value], extra);
  }

  // ----- the whole file -----

  function ServerSettings(): seq<Line> {
    [Comment(" managed by aether-powerdns"),
     Setting("launch", "gpgsql"),
     Setting("local-address", "0.0.0.0"),
     Setting("local-port", "53")]
  }

  function ApiSettings(port: nat): seq<Line> {
    [Setting("webserver", "yes"),
     Setting("webserver-address", "0.0.0.0"),
     Setting("webserver-port", Decimal(port)),
     Setting("webserver-allow-from", "0.0.0.0/0,::/0"),
     Setting("api", "yes")]
  }

  function OtherSettings(): seq<Line> {
    [Setting("default-soa-content", "@ hostmaster.@ 0 " + "10800 3600 604800 3600"),
     Setting("loglevel", "4")]
  }

  /** The part of pdns.conf the operator manages; an API port that is not declared is 8081. */
  function ManagedSettings(apiPort: nat): seq<Line> {
    ServerSettings() + ApiSettings(if apiPort == 0 then 8081 else apiPort) + OtherSettings()
  }

  function ManagedLines(apiPort: nat): seq<string> {
    Texts(ManagedSettings(apiPort))
  }

  ghost function PDNSConfig(managed: seq<string>, rules: Rules, extra: map<string, string>): string {
    Unlines(managed) + Block(rules, extra)
  }

  /** Reading the whole file: what the managed part says, overridden by accepted entries and nothing else. */
  lemma ConfigMeans(managed: seq<string>, rules: Rules, extra: map<string, string>)
    ensures Read(PDNSConfig(managed, rules, extra)) == Read(Unlines(managed)) + Accepted(rules, extra)
  {
    UnlinesIsWhole(managed);
    LinesConcat(Unlines(managed), Block(rules, extra));
    ReadLinesConcat(Lines(Unlines(managed)), Lines(Block(rules, extra)));
    BlockRoundTrip(rules, extra);
  }

  function Lookup(settings: map<string, string>, key: string): Option<string> {
    if key in settings then Some(settings[key]) else None
  }

  lemma ConfigLookup(managed: seq<string>, rules: Rules, extra: map<string, string>, key: string)
    ensures Lookup(Read(PDNSConfig(managed, rules, extra)), key) ==
            if key in Accepted(rules, extra) then Some(Accepted(rules, extra)[key]) else Lookup(Read(Unlines(managed)), key)
  {
    ConfigMeans(managed, rules, extra);
  }

  /** Whatever the user supplies, a managed key is looked up as if nothing had been supplied, and an accepted
      key is looked up as supplied. */
  lemma ManagedKeysAreProtected(managed: seq<string>, rules: Rules, extra: map<string, string>, key: string)
    ensures Managed(rules, key) ==>
              Lookup(Read(PDNSConfig(managed, rules, extra)), key) == Lookup(Read(PDNSConfig(managed, rules, map[])), key)
    ensures key in Accepted(rules, extra) ==> Lookup(Read(PDNSConfig(managed, rules, extra)), key) == Lookup(extra, key)
  {
    ConfigLookup(managed, rules, extra, key);
    ConfigLookup(managed, rules, map[], key);
    ManagedIsRejected(rules, extra, key);
    ManagedIsRejected(rules, map[], key);
  }

  /** So it is for the operator's own rules and file. */
  lemma OperatorKeysAreProtected(apiPort: nat, extra: map<string, string>, key: string)
    requires Managed(OperatorRules(), key)
    ensures Lookup(Read(PDNSConfig(ManagedLines(apiPort), OperatorRules(), extra)), key) ==
            Lookup(Read(PDNSConfig(ManagedLines(apiPort), OperatorRules(), map[])), key)
  {
    ManagedKeysAreProtected(ManagedLines(apiPort), OperatorRules(), extra, key);
  }

  // ----- what the managed part says -----

  /** A setting that no later line names again is what a reader gets. */
  lemma {:induction false} SettingStands(lines: seq<Line>, i: nat)
    requires i < |lines| && lines[i].Setting?
    requires forall j :: i < j < |lines| && lines[j].Setting? ==> |lines[j].key| != |lines[i].key|
    ensures Lookup(Meaning(lines), lines[i].key) == Some(lines[i].value)
  {
    if i > 0 {
      SettingStands(lines[1..], i - 1);
    } else {
      NotNamed(lines[1..], lines[0].key);
    }
  }

  lemma {:induction false} NotNamed(lines: seq<Line>, key: string)
    requires forall j :: 0 <= j < |lines| && lines[j].Setting? ==> |lines[j].key| != |key|
    ensures key !in Meaning(lines)
  {
    if lines != [] {
      NotNamed(lines[1..], key);
    }
  }

  lemma {:induction false} MeaningConcat(a: seq<Line>, b: seq<Line>)
    ensures Meaning(a + b) == Meaning(a) + Meaning(b)
  {
    if a == [] {
      assert a + b == b;
    } else {
      assert (a + b)[0] == a[0] && (a + b)[1..] == a[1..] + b;
      MeaningConcat(a[1..], b);
      MapsAssociate(MeaningOf(a[0]), Meaning(a[1..]), Meaning(b));
    }
  }

  lemma AddressIsWellFormed()
    ensures WellFormed(Setting("local-address", "0.0.0.0")) && WellFormed(Setting("webserver-address", "0.0.0.0"))
  {
  }

  lemma AllowIsWellFormed()
    ensures WellFormed(Setting("webserver-allow-from", "0.0.0.0/0,::/0"))
  {
  }

  lemma PortIsWellFormed(port: nat)
    ensures WellFormed(Setting("webserver-port", Decimal(port)))
  {
  }

  lemma BannerIsWellFormed()
    ensures WellFormed(Comment(" managed by aether-powerdns"))
  {
  }

  lemma SwitchesAreWellFormed()
    ensures WellFormed(Setting("launch", "gpgsql")) && WellFormed(Setting("local-port", "53"))
    ensures WellFormed(Setting("webserver", "yes")) && WellFormed(Setting("api", "yes"))
  {
  }

  lemma ServerIsWellFormed()
    ensures AllWellFormed(ServerSettings())
  {
    BannerIsWellFormed();
    SwitchesAreWellFormed();
    AddressIsWellFormed();
  }

  lemma ApiIsWellFormed(port: nat)
    ensures AllWellFormed(ApiSettings(port))
  {
    SwitchesAreWellFormed();
    AddressIsWellFormed();
    PortIsWellFormed(port);
    AllowIsWellFormed();
  }

  lemma SoaIsOneLine()
    ensures OneLiner("@ hostmaster.@ 0 " + "10800 3600 604800 3600")
  {
    assert OneLiner("@ hostmaster.@ 0 ") && OneLiner("10800 3600 604800 3600");
  }

  lemma OtherIsWellFormed()
    ensures AllWellFormed(OtherSettings())
  {
    SoaIsOneLine();
    assert WellFormed(Setting("loglevel", "4"));
  }

  lemma ThreeWellFormed(a: seq<Line>, b: seq<Line>, c: seq<Line>)
    requires AllWellFormed(a) && AllWellFormed(b) && AllWellFormed(c)
    ensures Read(Unlines(Texts(a + b + c))) == Meaning(a) + Meaning(b) + Meaning(c)
  {
    ReadUndoesRender(a + b + c);
    MeaningConcat(a, b);
    MeaningConcat(a + b, c);
  }

  lemma ServerSays()
    ensures Lookup(Meaning(ServerSettings()), "launch") == Some("gpgsql")
    ensures Lookup(Meaning(ServerSettings()), "local-address") == Some("0.0.0.0")
    ensures Lookup(Meaning(ServerSettings()), "local-port") == Some("53")
  {
    SettingStands(ServerSettings(), 1);
    SettingStands(ServerSettings(), 2);
    SettingStands(ServerSettings(), 3);
  }

  lemma ApiIsSilent(port: nat)
    ensures var api := Meaning(ApiSettings(port)); "launch" !in api && "local-address" !in api && "local-port" !in api
  {
    NotNamed(ApiSettings(port), "launch");
    NotNamed(ApiSettings(port), "local-address");
    NotNamed(ApiSettings(port), "local-port");
  }

  lemma ApiSays(port: nat)
    ensures Lookup(Meaning(ApiSettings(port)), "webserver") == Some("yes") && Lookup(Meaning(ApiSettings(port)), "api") == Some("yes")
    ensures Lookup(Meaning(ApiSettings(port)), "webserver-address") == Some("0.0.0.0")
    ensures Lookup(Meaning(ApiSettings(port)), "webserver-port") == Some(Decimal(port))
    ensures Lookup(Meaning(ApiSettings(port)), "webserver-allow-from") == Some("0.0.0.0/0,::/0")
  {
    SettingStands(ApiSettings(port), 0);
    SettingStands(ApiSettings(port), 1);
    SettingStands(ApiSettings(port), 2);
    SettingStands(ApiSettings(port), 3);
    SettingStands(ApiSettings(port), 4);
  }

  lemma OtherIsSilent()
    ensures var other := Meaning(OtherSettings());
            && "webserver" !in other && "api" !in other && "webserver-address" !in other && "webserver-port" !in other
            && "webserver-allow-from" !in other && "launch" !in other && "local-address" !in other && "local-port" !in other
  {
    NotNamed(OtherSettings(), "launch");
    NotNamed(OtherSettings(), "local-address");
    NotNamed(OtherSettings(), "local-port");
    NotNamed(OtherSettings(), "webserver");
    NotNamed(OtherSettings(), "api");
    NotNamed(OtherSettings(), "webserver-address");
    NotNamed(OtherSettings(), "webserver-port");
    NotNamed(OtherSettings(), "webserver-allow-from");
  }

  /** What the managed part says by itself. */
  ghost predicate KeepsContract(settings: map<string, string>, port: nat) {
    && Lookup(settings, "launch") == Some("gpgsql")
    && Lookup(settings, "local-address") == Some("0.0.0.0") && Lookup(settings, "local-port") == Some("53")
    && Lookup(settings, "webserver") == Some("yes") && Lookup(settings, "api") == Some("yes")
    && Lookup(settings, "webserver-address") == Some("0.0.0.0")
    && Lookup(settings, "webserver-allow-from") == Some("0.0.0.0/0,::/0")
    && Lookup(settings, "webserver-port").Some? && Value(Lookup(settings, "webserver-port").value) == port
  }

  lemma TogetherSay(server: map<string, string>, api: map<string, string>, other: map<string, string>, port: nat)
    requires Lookup(server, "launch") == Some("gpgsql")
    requires Lookup(server, "local-address") == Some("0.0.0.0") && Lookup(server, "local-port") == Some("53")
    requires Lookup(api, "webserver") == Some("yes") && Lookup(api, "api") == Some("yes")
    requires Lookup(api, "webserver-address") == Some("0.0.0.0") && Lookup(api, "webserver-allow-from") == Some("0.0.0.0/0,::/0")
    requires Lookup(api, "webserver-port").Some? && Value(Lookup(api, "webserver-port").value) == port
    requires "launch" !in api && "local-address" !in api && "local-port" !in api
    requires "webserver" !in other && "api" !in other && "webserver-address" !in other && "webserver-port" !in other
    requires "webserver-allow-from" !in other && "launch" !in other && "local-address" !in other && "local-port" !in other
    ensures KeepsContract(server + api + other, port)
  {
  }

  lemma ManagedSays(apiPort: nat)
    ensures KeepsContract(Read(Unlines(ManagedLines(apiPort))), if apiPort == 0 then 8081 else apiPort)
  {
    var port := if apiPort == 0 then 8081 else apiPort;
    ServerIsWellFormed();
    ApiIsWellFormed(port);
    OtherIsWellFormed();
    ThreeWellFormed(ServerSettings(), ApiSettings(port), OtherSettings());
    ServerSays();
    ApiSays(port);
    ApiIsSilent(port);
    OtherIsSilent();
    DecimalReadsBack(port);
    TogetherSay(Meaning(ServerSettings()), Meaning(ApiSettings(port)), Meaning(OtherSettings()), port);
  }

  lemma Kept(managed: seq<string>, extra: map<string, string>, key: string)
    requires Managed(OperatorRules(), key)
    ensures Lookup(Read(PDNSConfig(managed, OperatorRules(), extra)), key) == Lookup(Read(Unlines(managed)), key)
  {
    ConfigLookup(managed, OperatorRules(), extra, key);
    ManagedIsRejected(OperatorRules(), extra, key);
  }

  lemma AllKept(managed: seq<string>, extra: map<string, string>, port: nat)
    requires KeepsContract(Read(Unlines(managed)), port)
    ensures KeepsContract(Read(PDNSConfig(managed, OperatorRules(), extra)), port)
  {
    Kept(managed, extra, "launch");
    Kept(managed, extra, "local-address");
    Kept(managed, extra, "local-port");
    Kept(managed, extra, "webserver");
    Kept(managed, extra, "api");
    Kept(managed, extra, "webserver-address");
    Kept(managed, extra, "webserver-allow-from");
    Kept(managed, extra, "webserver-port");
  }

  /** Whatever the user supplies, the server of this file answers DNS on port 53 out of its database, and serves its
      API on the declared port, or 8081, to everyone. */
  lemma ManagedContract(apiPort: nat, extra: map<string, string>)
    ensures KeepsContract(Read(PDNSConfig(ManagedLines(apiPort), OperatorRules(), extra)), if apiPort == 0 then 8081 else apiPort)
  {
    ManagedSays(apiPort);
    AllKept(ManagedLines(apiPort), extra, if apiPort == 0 then 8081 else apiPort);
  }

  lemma ManagedIsRejected(rules: Rules, extra: map<string, string>, key: string)
    ensures key in Accepted(rules, extra) ==> !Managed(rules, key) && key in extra && Accepted(rules, extra)[key] == extra[key]
  {
  }

  // ----- the loops -----

  function Violations(keys: seq<string>, verdicts: map<string, Violation>): seq<Violation> {
    if keys == [] then []
    else if keys[0] in verdicts then [verdicts[keys[0]]] + Violations(keys[1..], verdicts)
    else Violations(keys[1..], verdicts)
  }

  function Verdicts(rules: Rules, extra: map<string, string>): map<string, Violation> {
    map k | k in extra && ViolationOf(rules, k, extra[k]).Some? :: ViolationOf(rules, k, extra[k]).value
  }

  lemma {:induction false} ViolationsAre(keys: seq<string>, verdicts: map<string, Violation>, v: Violation)
    requires forall k :: k in verdicts ==> verdicts[k].key == k
    ensures v in Violations(keys, verdicts) <==> v.key in keys && v.key in verdicts && verdicts[v.key] == v
  {
    if keys != [] {
      ViolationsAre(keys[1..], verdicts, v);
      assert keys == [keys[0]] + keys[1..];
    }
  }

  lemma ViolationsCons(k: string, rest: seq<string>, verdicts: map<string, Violation>)
    ensures Violations([k] + rest, verdicts) ==
            if k in verdicts then [verdicts[k]] + Violations(rest, verdicts) else Violations(rest, verdicts)
  {
    assert ([k] + rest)[1..] == rest;
  }

  lemma VerdictsAre(rules: Rules, extra: map<string, string>, k: string)
    ensures k in Verdicts(rules, extra) <==> k in extra && ViolationOf(rules, k, extra[k]).Some?
    ensures k in Verdicts(rules, extra) ==> ViolationOf(rules, k, extra[k]) == Some(Verdicts(rules, extra)[k])
                                            && Verdicts(rules, extra)[k].key == k
    ensures k in Verdicts(rules, extra) <==> k in extra && k !in Accepted(rules, extra)
  {
  }

  /** The messages are the violations, one per rejected entry. */
  lemma MessagesAreViolations(rules: Rules, extra: map<string, string>, v: Violation)
    ensures v in Violations(SortedKeys(extra.Keys), Verdicts(rules, extra)) <==>
            v.key in extra && ViolationOf(rules, v.key, extra[v.key]) == Some(v)
  {
    var verdicts := Verdicts(rules, extra);
    forall k | k in verdicts ensures verdicts[k].key == k {
      VerdictsAre(rules, extra, k);
    }
    ViolationsAre(SortedKeys(extra.Keys), verdicts, v);
    VerdictsAre(rules, extra, v.key);
  }

  lemma {:induction false} NoVerdictNoMessage(keys: seq<string>, verdicts: map<string, Violation>)
    ensures Violations(keys, verdicts) == [] <==> forall k :: k in keys ==> k !in verdicts
  {
    if keys != [] {
      NoVerdictNoMessage(keys[1..], verdicts);
      assert keys == [keys[0]] + keys[1..];
    }
  }

  lemma AllAccepted(rules: Rules, extra: map<string, string>)
    ensures Accepted(rules, extra) == extra <==> forall k :: k in extra ==> k in Accepted(rules, extra)
  {
  }

  /** There is no message exactly when every entry is accepted. */
  lemma NoneRefused(rules: Rules, extra: map<string, string>)
    ensures Violations(SortedKeys(extra.Keys), Verdicts(rules, extra)) == [] <==> Accepted(rules, extra) == extra
  {
    AllAccepted(rules, extra);
    NoVerdictNoMessage(SortedKeys(extra.Keys), Verdicts(rules, extra));
    forall k | k in extra ensures k in Verdicts(rules, extra) <==> k !in Accepted(rules, extra) {
      VerdictsAre(rules, extra, k);
    }
  }

  /** One message per rejected entry, in key order. */
  method ValidateExtraSettings(rules: Rules, extra: map<string, string>) returns (msgs: seq<Violation>)
    ensures msgs == Violations(SortedKeys(extra.Keys), Verdicts(rules, extra))
    ensures msgs == [] <==> Accepted(rules, extra) == extra
  {
    var keys := KeysInOrder(extra);
    msgs := ValidateEach(rules, keys, extra);
    NoneRefused(rules, extra);
  }

  method ValidateEach(rules: Rules, keys: seq<string>, extra: map<string, string>) returns (msgs: seq<Violation>)
    requires forall k :: k in keys ==> k in extra
    ensures msgs == Violations(keys, Verdicts(rules, extra))
  {
    msgs := [];
    ghost var verdicts := Verdicts(rules, extra);
    for i := 0 to |keys|
      invariant msgs + Violations(keys[i..], verdicts) == Violations(keys, verdicts)
    {
      assert keys[i..] == [keys[i]] + keys[i + 1..];
      ViolationsCons(keys[i], keys[i + 1..], verdicts);
      var msg := Judge(rules, keys[i], extra);
      if msg.Some? {
        msgs := msgs + [msg.value];
      }
    }
  }

  /** The verdict on one entry. */
  method Judge(rules: Rules, key: string, extra: map<string, string>) returns (msg: Option<Violation>)
    requires key in extra
    ensures msg.Some? <==> key in Verdicts(rules, extra)
    ensures msg.Some? ==> msg.value == Verdicts(rules, extra)[key]
    ensures msg.None? <==> key in Accepted(rules, extra)
    ensures msg.None? ==> Accepted(rules, extra)[key] == extra[key]
  {
    msg := ViolationOf(rules, key, extra[key]);
  }

  method RenderExtraSettings(rules: Rules, extra: map<string, string>) returns (b: string)
    ensures b == Block(rules, extra)
    ensures Read(b) == Accepted(rules, extra)
  {
    var keys := KeysInOrder(extra);
    b := RenderEach(rules, keys, extra);
    BlockRoundTrip(rules, extra);
  }

  /** The header goes out with the first accepted entry only. */
  method WriteEntry(b: string, key: string, value: string, ghost written: seq<Line>) returns (more: string)
    requires b == Render(WithHeader(written)) && (b == "" <==> written == [])
    ensures more == Render(WithHeader(written + [Setting(key, value)])) && more != ""
  {
    AppendEntry(written, key, value);
    more := b;
    if more == "" {
      more := Text(Header()) + "\n";
    }
    more := more + key + "=" + value + "\n";
  }

  lemma {:induction false} EntriesSnoc(keys: seq<string>, k: string, accepted: map<string, string>)
    ensures EntryLines(keys + [k], accepted) ==
            if k in accepted then EntryLines(keys, accepted) + [Setting(k, accepted[k])] else EntryLines(keys, accepted)
  {
    if keys == [] {
      assert keys + [k] == [k];
    } else {
      assert keys + [k] == [keys[0]] + (keys[1..] + [k]);
      EntriesCons(keys[0], keys[1..] + [k], accepted);
      EntriesSnoc(keys[1..], k, accepted);
    }
  }

  method RenderEach(rules: Rules, keys: seq<string>, extra: map<string, string>) returns (b: string)
    requires forall k :: k in keys ==> k in extra
    ensures b == Render(WithHeader(EntryLines(keys, Accepted(rules, extra))))
  {
    b := "";
    ghost var accepted := Accepted(rules, extra);
    ghost var written: seq<Line> := [];
    for i := 0 to |keys|
      invariant written == EntryLines(keys[..i], accepted)
      invariant b == Render(WithHeader(written)) && (b == "" <==> written == [])
    {
      assert keys[..i + 1] == keys[..i] + [keys[i]];
      EntriesSnoc(keys[..i], keys[i], accepted);
      var msg := Judge(rules, keys[i], extra);
      if msg.None? {
        b := WriteEntry(b, keys[i], extra[keys[i]], written);
        written := written + [Setting(keys[i], extra[keys[i]])];
      }
    }
    assert keys[..|keys|] == keys;
  }

  lemma AppendEntry(written: seq<Line>, key: string, value: string)
    ensures var more := Render(WithHeader(written + [Setting(key, value)]));
            && more != ""
            && more == (if written == [] then Text(Header()) + "\n" else Render(WithHeader(written))) + key + "=" + value + "\n"
  {
    HeaderFirst(written, Setting(key, value));
    if written == [] {
      RenderHeader();
    }
    LineText(Render([Header()] + written), key, value);
  }

  lemma HeaderFirst(written: seq<Line>, line: Line)
    ensures Render(WithHeader(written + [line])) == Render([Header()] + written) + Text(line) + "\n"
  {
    assert [Header()] + (written + [line]) == [Header()] + written + [line];
    RenderSnoc([Header()] + written, line);
  }

  lemma RenderHeader()
    ensures Render([Header()] + []) == Text(Header()) + "\n"
  {
    assert Texts([]) == [];
    RenderSnoc([], Header());
    assert [] + [Header()] == [Header()] + [];
  }

  lemma LineText(b: string, key: string, value: string)
    ensures b + Text(Setting(key, value)) + "\n" == b + key + "=" + value + "\n"
  {
  }

  lemma RenderSnoc(lines: seq<Line>, line: Line)
    ensures Render(lines + [line]) == Render(lines) + Text(line) + "\n"
  {
    assert Texts(lines + [line]) == Texts(lines) + [Text(line)];
    UnlinesConcat(Texts(lines), [Text(line)]);
    assert Unlines([Text(line)]) == Text(line) + "\n";
  }
}
