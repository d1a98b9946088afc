/**
 The --foreign-clusters flag: splitCommaFlag of cmd/main.go, then ParseClusterList
 of internal/foreigncluster/config.go.
 */
module ClusterList {
  import opened Sequences
  import opened Text
  import opened Wrappers

  const AZURE_WORKLOAD_IDENTITY := "azure-workload-identity"
  const DEFAULT_AKS_SERVER_APP_ID := "6dae42f8-4368-" + "4678-94ff-" + "3960e28e3630"
  const DEFAULT_AZURE_SCOPE := DEFAULT_AKS_SERVER_APP_ID + "/.default"

  datatype ClusterConfig = ClusterConfig(endpoint: string, authMethod: string, azureScope: string)

  predicate IsAzure(cfg: ClusterConfig) {
    cfg.authMethod == AZURE_WORKLOAD_IDENTITY
  }

  function KubeconfigContext(cfg: ClusterConfig): string {
    if IsAzure(cfg) then "" else cfg.authMethod
  }

  /** The configurations an entry can denote. */
  predicate WellFormed(cfg: ClusterConfig) {
    && Trimmed(cfg.endpoint) && cfg.endpoint != "" && '=' !in cfg.endpoint
    && Usable(cfg.authMethod, cfg.azureScope)
  }

  predicate Usable(authMethod: string, azureScope: string) {
    && Trimmed(authMethod) && authMethod != "" && !(AZURE_WORKLOAD_IDENTITY + [':'] <= authMethod)
    && Trimmed(azureScope) && (azureScope != "" <==> authMethod == AZURE_WORKLOAD_IDENTITY)
  }

  predicate NoCommas(cfg: ClusterConfig) {
    ',' !in cfg.endpoint && ',' !in cfg.authMethod && ',' !in cfg.azureScope
  }

  // ------------------------------------------------------------------- reading

  /** An entry with something in it, but without "=", or with nothing on one side of the first one. */
  predicate Malformed(entry: string) {
    var cut := CutAt(entry, '=');
    !Blank(entry) && (!cut.found || Blank(cut.before) || Blank(cut.after))
  }

  datatype Credentials = Credentials(authMethod: string, azureScope: string)

  /** What the part after the "=" denotes. */
  function CredentialsOf(auth: string): Credentials {
    var cut := CutAt(auth, ':');
    if cut.found && cut.before == AZURE_WORKLOAD_IDENTITY then
      Credentials(AZURE_WORKLOAD_IDENTITY, if TrimSpace(cut.after) == "" then DEFAULT_AZURE_SCOPE else TrimSpace(cut.after))
    else
      Credentials(auth, if auth == AZURE_WORKLOAD_IDENTITY then DEFAULT_AZURE_SCOPE else "")
  }

  /** What a well-formed entry denotes. */
  function ConfigOf(entry: string): ClusterConfig {
    var cut := CutAt(TrimSpace(entry), '=');
    var credentials := CredentialsOf(TrimSpace(cut.after));
    ClusterConfig(TrimSpace(cut.before), credentials.authMethod, credentials.azureScope)
  }

  function Configs(entries: seq<string>): seq<ClusterConfig> {
    Map(ConfigOf, Filter(entry => !Blank(entry), entries))
  }

  /** The whole list is refused when one entry is malformed; blank entries are skipped. */
  ghost function Parsed(entries: seq<string>): Result<seq<ClusterConfig>> {
    if exists i :: 0 <= i < |entries| && Malformed(entries[i]) then Err else Ok(Configs(entries))
  }

  lemma BlankPadded(a: string, s: string, b: string)
    requires Blank(a) && Blank(b)
    ensures Blank(a + s) <==> Blank(s)
    ensures Blank(s + b) <==> Blank(s)
  {
    assert forall i :: 0 <= i < |s| ==> (a + s)[|a| + i] == s[i] && (s + b)[i] == s[i];
  }

  lemma BlankLacks(s: string, c: char)
    requires Blank(s) && !IsSpace(c)
    ensures c !in s
  {
  }

  /** Outer whitespace of an entry does not decide whether it is malformed. */
  lemma MalformedTrimmed(entry: string, cut: Cut)
    requires !Blank(entry) && cut == CutAt(TrimSpace(entry), '=')
    ensures Malformed(entry) <==> !cut.found || TrimSpace(cut.before) == "" || TrimSpace(cut.after) == ""
  {
    hide Blank, TrimSpace, CutAt;
    var t := TrimSpace(entry);
    var a, b := TrimSplits(entry);
    BlankLacks(a, '=');
    BlankLacks(b, '=');
    if cut.found {
      BlankTrims(cut.before);
      BlankTrims(cut.after);
      BlankPadded(a, cut.before, b);
      BlankPadded(a, cut.after, b);
      assert entry == (a + cut.before) + ['='] + (cut.after + b);
      CutFirst(a + cut.before, cut.after + b, '=');
    }
  }

  /** What the credentials of an entry denote: Azure's method, by itself or with a scope
      after a colon, has the given scope or else the default one; anything else is the name of a
      kubeconfig context. */
  lemma CredentialsExact(auth: string)
    ensures CredentialsOf("azure-workload-identity") == Credentials("azure-workload-identity", DEFAULT_AZURE_SCOPE)
    ensures CredentialsOf("azure-workload-identity" + [':'] + auth)
         == Credentials("azure-workload-identity", if Blank(auth) then DEFAULT_AZURE_SCOPE else TrimSpace(auth))
    ensures auth != "azure-workload-identity" && !("azure-workload-identity" + [':'] <= auth) ==> CredentialsOf(auth) == Credentials(auth, "")
  {
    hide TrimSpace, CutAt, Blank;
    BlankTrims(auth);
    assert ':' !in AZURE_WORKLOAD_IDENTITY;
    CutFirst(AZURE_WORKLOAD_IDENTITY, auth, ':');
    var cut := CutAt(auth, ':');
    assert cut.found ==> cut.before + [':'] <= auth;
  }

  /** An entry denotes its endpoint and its credentials, divided at the first "=". */
  lemma ConfigExact(a: string, endpoint: string, auth: string, b: string)
    requires Blank(a) && Blank(b) && '=' !in endpoint && !Blank(endpoint) && !Blank(auth)
    ensures var credentials := CredentialsOf(TrimSpace(auth));
      && !Malformed(a + endpoint + ['='] + auth + b)
      && ConfigOf(a + endpoint + ['='] + auth + b) == ClusterConfig(TrimSpace(endpoint), credentials.authMethod, credentials.azureScope)
  {
    hide TrimSpace, CutAt, CredentialsOf, Blank;
    var e, t := TrimSpace(endpoint), TrimSpace(auth);
    var ea, eb := TrimSplits(endpoint);
    var ta, tb := TrimSplits(auth);
    BlankTrims(endpoint);
    BlankTrims(auth);
    assert '=' !in e + eb by {
      assert forall i :: 0 <= i < |e + eb| ==> (e + eb)[i] == endpoint[|ea| + i];
    }
    var middle := (e + eb) + ['='] + (ta + t);
    var entry := a + endpoint + ['='] + auth + b;
    assert entry == (a + ea) + middle + (tb + b);
    BlankPadded(a, ea, eb);
    BlankPadded(tb, b, b);
    assert middle[0] == e[0] && middle[|middle| - 1] == t[|t| - 1];
    TrimPadded(a + ea, middle, tb + b);
    CutFirst(e + eb, ta + t, '=');
    TrimPadded(ea, e, eb);
    BlankPadded("", "", "");
    assert Blank("") by { BlankEmpty(); }
    TrimPadded("", e, eb);
    TrimPadded(ta, t, "");
    assert "" + e + eb == e + eb && ta + t + "" == ta + t;
    BlankTrims(entry);
    MalformedTrimmed(entry, CutAt(TrimSpace(entry), '='));
  }

  lemma BlankEmpty()
    ensures Blank("")
  {
  }

  /** ParseClusterList */
  method ParseClusterList(entries: seq<string>) returns (r: Result<seq<ClusterConfig>>)
    ensures r == Parsed(entries)
  {
    hide ConfigOf, CutAt, TrimSpace;
    var out: seq<ClusterConfig> := [];
    for i := 0 to |entries|
      invariant forall j :: 0 <= j < i ==> !Malformed(entries[j])
      invariant out == Configs(entries[..i])
    {
      FilterSnoc((entry: string) => !Blank(entry), entries, i);
      BlankTrims(entries[i]);
      var next := ParseEntry(entries[i]);
      match next {
        case Err =>
          return Err;
        case Ok(None) =>
        case Ok(Some(cfg)) =>
          out := out + [cfg];
      }
    }
    assert entries[..|entries|] == entries;
    r := Ok(out);
  }

  /** The body of the loop; None is `continue`. */
  method ParseEntry(entry: string) returns (r: Result<Option<ClusterConfig>>)
    ensures r == if Blank(entry) then Ok(None) else if Malformed(entry) then Err else Ok(Some(ConfigOf(entry)))
  {
    hide Malformed, TrimSpace, CutAt, Blank;
    BlankTrims(entry);
    var trimmed := TrimSpace(entry);
    if trimmed == "" {
      return Ok(None);
    }
    var cut := CutAt(trimmed, '=');
    MalformedTrimmed(entry, cut);
    if !cut.found || TrimSpace(cut.before) == "" || TrimSpace(cut.after) == "" {
      return Err;
    }
    var cfg := ClusterConfig(TrimSpace(cut.before), TrimSpace(cut.after), "");
    var azure := CutAt(cfg.authMethod, ':');
    if azure.found && azure.before == AZURE_WORKLOAD_IDENTITY {
      cfg := cfg.(authMethod := AZURE_WORKLOAD_IDENTITY, azureScope := TrimSpace(azure.after));
    }
    if IsAzure(cfg) && cfg.azureScope == "" {
      cfg := cfg.(azureScope := DEFAULT_AZURE_SCOPE);
    }
    r := Ok(Some(cfg));
  }

  /** What splitCommaFlag keeps of a flag. */
  function FlagEntries(s: string): seq<string> {
    Filter(entry => entry != "", Map(TrimSpace, Split(s, ',')))
  }

  /** splitCommaFlag */
  method SplitCommaFlag(s: string) returns (result: seq<string>)
    ensures result == FlagEntries(s)
  {
    hide TrimSpace;
    result := [];
    var parts := Split(s, ',');
    ghost var all := Map(TrimSpace, parts);
    for i := 0 to |parts|
      invariant result == Filter((entry: string) => entry != "", all[..i])
    {
      FilterSnoc((entry: string) => entry != "", all, i);
      var v := TrimSpace(parts[i]);
      if v != "" {
        result := result + [v];
      }
    }
    assert all[..|parts|] == all;
  }

  // ------------------------------------------------------------------- writing

  /** endpoint=auth[:scope] */
  function Printed(cfg: ClusterConfig): string {
    cfg.endpoint + ['='] + PrintedCredentials(cfg)
  }

  function PrintedList(cfgs: seq<ClusterConfig>): string {
    Join(Map(Printed, cfgs), ',')
  }

  function PrintedCredentials(cfg: ClusterConfig): string {
    if IsAzure(cfg) then AZURE_WORKLOAD_IDENTITY + [':'] + cfg.azureScope else cfg.authMethod
  }

  lemma PrintedCredentialsParse(cfg: ClusterConfig)
    requires WellFormed(cfg)
    ensures Trimmed(PrintedCredentials(cfg)) && PrintedCredentials(cfg) != ""
    ensures CredentialsOf(PrintedCredentials(cfg)) == Credentials(cfg.authMethod, cfg.azureScope)
  {
    hide TrimSpace, CutAt;
    if IsAzure(cfg) {
      TrimFixed(cfg.azureScope);
      CutFirst(AZURE_WORKLOAD_IDENTITY, cfg.azureScope, ':');
    } else {
      var azure := CutAt(cfg.authMethod, ':');
      assert azure.found ==> azure.before + [':'] <= cfg.authMethod;
    }
  }

  /** Reading what was printed. */
  lemma PrintedParses(cfg: ClusterConfig)
    requires WellFormed(cfg)
    ensures Trimmed(Printed(cfg)) && !Blank(Printed(cfg)) && !Malformed(Printed(cfg))
    ensures ConfigOf(Printed(cfg)) == cfg
  {
    hide TrimSpace, CutAt, CredentialsOf;
    var auth := PrintedCredentials(cfg);
    var entry := Printed(cfg);
    PrintedCredentialsParse(cfg);
    CutFirst(cfg.endpoint, auth, '=');
    TrimFixed(entry);
    TrimFixed(cfg.endpoint);
    TrimFixed(auth);
    BlankTrims(cfg.endpoint);
    BlankTrims(auth);
  }

  lemma ConstantsUsable()
    ensures Usable(AZURE_WORKLOAD_IDENTITY, DEFAULT_AZURE_SCOPE)
    ensures ',' !in AZURE_WORKLOAD_IDENTITY && ',' !in DEFAULT_AZURE_SCOPE
  {
    assert Trimmed("6dae42f8-4368-") && Trimmed("/.default");
    assert |AZURE_WORKLOAD_IDENTITY + [':']| == |AZURE_WORKLOAD_IDENTITY| + 1;
  }

  lemma CredentialsUsable(auth: string)
    requires Trimmed(auth) && auth != ""
    ensures Usable(CredentialsOf(auth).authMethod, CredentialsOf(auth).azureScope)
    ensures ',' !in auth ==> ',' !in CredentialsOf(auth).authMethod && ',' !in CredentialsOf(auth).azureScope
  {
    hide TrimSpace, CutAt;
    var cut := CutAt(auth, ':');
    TrimWithin(cut.after);
    ConstantsUsable();
    if AZURE_WORKLOAD_IDENTITY + [':'] <= auth {
      var rest := auth[|AZURE_WORKLOAD_IDENTITY| + 1..];
      assert auth == AZURE_WORKLOAD_IDENTITY + [':'] + rest;
      CutFirst(AZURE_WORKLOAD_IDENTITY, rest, ':');
    }
  }

  /** Everything read is well formed: the Azure method has a scope, the others have none. */
  lemma ParsedWellFormed(entry: string)
    requires !Blank(entry) && !Malformed(entry)
    ensures WellFormed(ConfigOf(entry))
    ensures KubeconfigContext(ConfigOf(entry)) == "" <==> ConfigOf(entry).azureScope != ""
    ensures ',' !in entry ==> NoCommas(ConfigOf(entry))
  {
    hide TrimSpace, CutAt, Malformed, CredentialsOf;
    var cut := CutAt(TrimSpace(entry), '=');
    MalformedTrimmed(entry, cut);
    TrimWithin(entry);
    TrimWithin(cut.before);
    TrimWithin(cut.after);
    CredentialsUsable(TrimSpace(cut.after));
  }

  lemma TrimWithin(s: string)
    ensures forall c :: c in TrimSpace(s) ==> c in s
  {
    var a, b := TrimSplits(s);
  }

  /** The well-formed configurations are exactly those that some entry denotes. */
  lemma WellFormedIffDenoted(cfg: ClusterConfig)
    ensures WellFormed(cfg) <==> exists entry :: !Blank(entry) && !Malformed(entry) && ConfigOf(entry) == cfg
  {
    if WellFormed(cfg) {
      PrintedParses(cfg);
    }
    forall entry | !Blank(entry) && !Malformed(entry) && ConfigOf(entry) == cfg ensures WellFormed(cfg) {
      ParsedWellFormed(entry);
    }
  }

  lemma PrintedLacksCommas(cfg: ClusterConfig)
    requires NoCommas(cfg)
    ensures ',' !in Printed(cfg)
  {
  }

  /** Printing a list of configurations and reading it back through the flag gives the list. */
  lemma FlagRoundTrip(cfgs: seq<ClusterConfig>)
    requires forall i :: 0 <= i < |cfgs| ==> WellFormed(cfgs[i]) && NoCommas(cfgs[i])
    ensures Parsed(FlagEntries(PrintedList(cfgs))) == Ok(cfgs)
  {
    hide TrimSpace, Malformed, Printed, WellFormed, NoCommas, ConfigOf, Blank;
    var printed := Map(Printed, cfgs);
    if cfgs == [] {
      EmptyFlag();
      return;
    }
    forall i | 0 <= i < |cfgs|
      ensures ',' !in printed[i] && TrimSpace(printed[i]) == printed[i] != "" && !Blank(printed[i])
      ensures !Malformed(printed[i]) && ConfigOf(printed[i]) == cfgs[i]
    {
      PrintedLacksCommas(cfgs[i]);
      PrintedParses(cfgs[i]);
      TrimFixed(printed[i]);
      BlankTrims(printed[i]);
    }
    SplitJoin(printed, ',');
    assert Map(TrimSpace, printed) == printed;
    FilterAll((entry: string) => entry != "", printed);
    FilterAll((entry: string) => !Blank(entry), printed);
    assert Map(ConfigOf, printed) == cfgs;
  }

  lemma EmptyFlag()
    ensures Parsed(FlagEntries("")) == Ok([])
  {
    assert Split("", ',') == [""];
    assert Map(TrimSpace, [""]) == [""];
  }

  /** Reading a flag, printing it and reading it again changes nothing. */
  lemma FlagStable(s: string)
    requires Parsed(FlagEntries(s)).Ok?
    ensures Parsed(FlagEntries(PrintedList(Parsed(FlagEntries(s)).value))) == Parsed(FlagEntries(s))
  {
    hide TrimSpace, Malformed, Printed, WellFormed, NoCommas, ConfigOf, Blank;
    var entries := FlagEntries(s);
    var kept := Filter((entry: string) => !Blank(entry), entries);
    FilterMembers((entry: string) => !Blank(entry), entries);
    FilterMembers((entry: string) => entry != "", Map(TrimSpace, Split(s, ',')));
    SplitPartsLack(s, ',');
    forall i | 0 <= i < |kept| ensures WellFormed(ConfigOf(kept[i])) && NoCommas(ConfigOf(kept[i])) {
      assert kept[i] in kept;
      var j :| 0 <= j < |entries| && entries[j] == kept[i];
      assert entries[j] in entries;
      var k :| 0 <= k < |Split(s, ',')| && TrimSpace(Split(s, ',')[k]) == kept[i];
      TrimWithin(Split(s, ',')[k]);
      ParsedWellFormed(kept[i]);
    }
    FlagRoundTrip(Configs(entries));
  }
}
