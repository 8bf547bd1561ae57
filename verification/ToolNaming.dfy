/** Local names for remote MCP tools (internal/mcp/loader.go) and the registry they go into
    (internal/tools/registry.go). A name is a sequence of runes. */
module ToolNaming {
  import opened Text

  // ---------- safe names ----------

  /** unicode.ToLower, as far as the result can be an ASCII letter. */
  function LowerRune(r: char): char {
    if 'A' <= r <= 'Z' then r + 32 as char
    else if r == '\U{130}' then 'i'   // capital I with a dot above
    else if r == '\U{212A}' then 'k'  // the Kelvin sign
    else r
  }

  predicate IsLetter(c: char) { 'a' <= c <= 'z' }

  predicate IsNameChar(c: char) { IsLetter(c) || IsDigit(c) || c == '_' }

  /** [a-z][a-z0-9_]* */
  predicate IsName(s: string) {
    s != "" && IsLetter(s[0]) && forall i | 0 <= i < |s| :: IsNameChar(s[i])
  }

  function SafeRune(r: char): (c: char)
    ensures IsNameChar(c)
  {
    var l := LowerRune(r);
    if IsLetter(l) || IsDigit(l) then l else '_'
  }

  function SafeRunes(s: string): (b: string)
    ensures |b| == |s|
    ensures forall i | 0 <= i < |s| :: b[i] == SafeRune(s[i])
  {
    seq(|s|, i requires 0 <= i < |s| => SafeRune(s[i]))
  }

  const UNDERSCORE: set<char> := {'_'}

  function Lettered(out: string): string {
    if out == "" then "" else if !IsLetter(out[0]) then "t_" + out else out
  }

  function SanitizedName(s: string): string {
    Lettered(Trim(SafeRunes(TrimSpace(s)), UNDERSCORE))
  }

  predicate AllNameChars(s: string) {
    forall i | 0 <= i < |s| :: IsNameChar(s[i])
  }

  /** Names that sanitizing leaves alone, besides the empty one. */
  predicate IsSanitized(s: string) {
    IsName(s) && s[|s| - 1] != '_'
  }

  lemma TrimRightKeeps(s: string)
    requires AllNameChars(s)
    ensures AllNameChars(TrimRight(s, UNDERSCORE))
  {
    var t := TrimRight(s, UNDERSCORE);
    assert forall i | 0 <= i < |t| :: t[i] == s[i];
  }

  lemma {:induction false} TrimLeftKeeps(s: string)
    requires AllNameChars(s)
    ensures AllNameChars(TrimLeft(s, UNDERSCORE))
  {
    if s != "" && s[0] in UNDERSCORE {
      assert forall i | 0 <= i < |s| - 1 :: s[1..][i] == s[i + 1];
      TrimLeftKeeps(s[1..]);
    }
  }

  lemma TrimKeeps(s: string)
    requires AllNameChars(s)
    ensures AllNameChars(Trim(s, UNDERSCORE))
  {
    TrimRightKeeps(s);
    TrimLeftKeeps(TrimRight(s, UNDERSCORE));
  }

  lemma LetteredIsName(out: string)
    requires out != "" && AllNameChars(out) && out[|out| - 1] != '_'
    ensures IsSanitized(Lettered(out))
  {
    var r := Lettered(out);
    assert r[|r| - 1] == out[|out| - 1];
    if !IsLetter(out[0]) {
      forall i | 0 <= i < |r| ensures IsNameChar(r[i]) {
        if i >= 2 {
          assert r[i] == out[i - 2];
        }
      }
    }
  }

  lemma TrimmedIsName(b: string)
    requires AllNameChars(b)
    ensures var out := Trim(b, UNDERSCORE);
      out == "" || (AllNameChars(out) && out[|out| - 1] != '_')
  {
    TrimKeeps(b);
  }

  /** Sanitizing gives nothing or a name in [a-z][a-z0-9_]* that does not end in an underscore. */
  lemma SanitizedIsName(s: string)
    ensures SanitizedName(s) == "" || IsSanitized(SanitizedName(s))
  {
    var b := SafeRunes(TrimSpace(s));
    TrimmedIsName(b);
    if Trim(b, UNDERSCORE) != "" {
      LetteredIsName(Trim(b, UNDERSCORE));
    }
  }

  lemma SanitizedFixed(s: string)
    requires IsSanitized(s)
    ensures SanitizedName(s) == s
  {
    assert s[0] !in WHITE && s[|s| - 1] !in WHITE && s[0] !in UNDERSCORE;
    assert IsNameChar(s[|s| - 1]);
    TrimFixed(s, WHITE);
    assert forall i | 0 <= i < |s| :: IsNameChar(s[i]) && SafeRune(s[i]) == s[i];
    assert SafeRunes(s) == s;
    TrimFixed(s, UNDERSCORE);
  }

  /** Sanitizing twice is sanitizing once. */
  lemma SanitizeIdempotent(s: string)
    ensures SanitizedName(SanitizedName(s)) == SanitizedName(s)
  {
    SanitizedIsName(s);
    if SanitizedName(s) != "" {
      SanitizedFixed(SanitizedName(s));
    } else {
      assert TrimSpace("") == "" && SafeRunes("") == "";
    }
  }

  /** A name of ASCII letters, digits and underscores that starts with a letter and does not end in an
      underscore. */
  predicate IsPlainName(s: string) {
    && s != "" && s[|s| - 1] != '_'
    && ('a' <= s[0] <= 'z' || 'A' <= s[0] <= 'Z')
    && forall i | 0 <= i < |s| :: 'a' <= s[i] <= 'z' || 'A' <= s[i] <= 'Z' || '0' <= s[i] <= '9' || s[i] == '_'
  }

  lemma PlainRune(c: char)
    requires 'a' <= c <= 'z' || 'A' <= c <= 'Z' || '0' <= c <= '9' || c == '_'
    ensures SafeRune(c) == Lower(c) && c !in WHITE
  {}

  lemma PlainLowered(s: string)
    requires IsPlainName(s)
    ensures SafeRunes(s) == ToLower(s) && IsTrimmed(s, WHITE)
    ensures Lettered(Trim(ToLower(s), UNDERSCORE)) == ToLower(s)
  {
    forall i | 0 <= i < |s| ensures SafeRune(s[i]) == Lower(s[i]) && s[i] !in WHITE {
      PlainRune(s[i]);
    }
    TrimFixed(ToLower(s), UNDERSCORE);
  }

  /** Sanitizing only lowers the capitals of a plain name, and takes white space off its ends. */
  lemma PlainNameLowered(pre: string, s: string, post: string)
    requires AllIn(pre, WHITE) && AllIn(post, WHITE) && IsPlainName(s)
    ensures SanitizedName(pre + s + post) == ToLower(s)
  {
    PlainLowered(s);
    TrimUnique(pre, s, post, WHITE);
  }

  /** Every other rune, but two, becomes an underscore, inside or at the ends of a name alike. */
  lemma OtherRune(c: char)
    ensures SafeRune(c) == if 'a' <= c <= 'z' || '0' <= c <= '9' then c
                           else if 'A' <= c <= 'Z' then c + 32 as char
                           else if c == '\U{130}' then 'i'
                           else if c == '\U{212A}' then 'k'
                           else '_'
  {}

  method SanitizeName(s: string) returns (out: string)
    ensures out == SanitizedName(s)
  {
    var trimmed := TrimSpace(s);
    var b := "";
    for i := 0 to |trimmed|
      invariant b == SafeRunes(trimmed[..i])
    {
      var r := LowerRune(trimmed[i]);
      if 'a' <= r <= 'z' {
        b := b + [r];
      } else if '0' <= r <= '9' {
        b := b + [r];
      } else {
        b := b + ['_'];
      }
      assert trimmed[..i + 1] == trimmed[..i] + [trimmed[i]];
    }
    assert trimmed[..|trimmed|] == trimmed;
    out := Trim(b, UNDERSCORE);
    if out == "" {
      return "";
    }
    if out[0] < 'a' || out[0] > 'z' {
      out := "t_" + out;
    }
  }

  // ---------- unique names ----------

  function Candidate(name: string, i: int): string {
    name + "_" + Itoa(i)
  }

  lemma CandidatesDiffer(name: string, i: int, j: int)
    requires Candidate(name, i) == Candidate(name, j)
    ensures i == j
  {
    assert Candidate(name, i)[|name| + 1..] == Itoa(i);
    assert Candidate(name, j)[|name| + 1..] == Itoa(j);
    ItoaInjective(i, j);
  }

  /** Every candidate with a smaller number is taken. */
  predicate TakenBelow(taken: set<string>, base: string, i: int) {
    forall j | 2 <= j < i :: Candidate(base, j) in taken
  }

  ghost predicate IsFreshName(taken: set<string>, base: string, name: string) {
    if base !in taken then name == base
    else exists i | 2 <= i <= |taken| + 1 :: name == Candidate(base, i) && name !in taken && TakenBelow(taken, base, i)
  }

  /** The names taken and the base leave no choice. */
  lemma FreshNameIsUnique(taken: set<string>, base: string, name: string, name': string)
    requires IsFreshName(taken, base, name) && IsFreshName(taken, base, name')
    ensures name == name'
  {
    if base in taken {
      var i :| 2 <= i <= |taken| + 1 && name == Candidate(base, i) && name !in taken && TakenBelow(taken, base, i);
      var j :| 2 <= j <= |taken| + 1 && name' == Candidate(base, j) && name' !in taken && TakenBelow(taken, base, j);
      assert i >= j && j >= i;
    }
  }

  /** The base name if it is free, else the candidate with the smallest free number from 2 on. The search
      ends because its candidates are distinct and only finitely many names are taken. */
  method UniqueToolName(existing: set<string>, base: string) returns (name: string)
    ensures name !in existing && IsFreshName(existing, if base == "" then "mcp_tool" else base, name)
  {
    var b := base;
    if b == "" {
      b := "mcp_tool";
    }
    if b !in existing {
      return b;
    }
    var i := 2;
    ghost var tried: set<string> := {b};
    while true
      invariant i >= 2 && TakenBelow(existing, b, i)
      invariant tried <= existing && |tried| == i - 1
      invariant forall t | t in tried :: t == b || exists j | 2 <= j < i :: t == Candidate(b, j)
      decreases |existing| + 2 - i
    {
      SubsetSize(tried, existing);
      var candidate := Candidate(b, i);
      if candidate !in existing {
        return candidate;
      }
      NotTried(tried, b, i);
      tried := tried + {candidate};
      SubsetSize(tried, existing);
      i := i + 1;
    }
  }

  lemma NotTried(tried: set<string>, b: string, i: int)
    requires forall t | t in tried :: t == b || exists j | 2 <= j < i :: t == Candidate(b, j)
    ensures Candidate(b, i) !in tried
  {
    forall j | 2 <= j < i ensures Candidate(b, j) != Candidate(b, i) {
      if Candidate(b, j) == Candidate(b, i) {
        CandidatesDiffer(b, i, j);
      }
    }
    assert |Candidate(b, i)| > |b|;
  }

  lemma SubsetSize<T>(a: set<T>, b: set<T>)
    requires a <= b
    ensures |a| <= |b|
  {
    if a != {} {
      var x :| x in a;
      SubsetSize(a - {x}, b - {x});
    }
  }

  // ---------- a registration run ----------

  datatype RemoteTool = RemoteTool(name: string, description: string)

  /** A configured server and the tools it lists; None if it fails to start or to list them. */
  datatype Server = Server(name: string, tools: Option<seq<RemoteTool>>)

  datatype Tool = Tool(name: string, serverName: string, remoteName: string, description: string)

  datatype ToolMapping = ToolMapping(localName: string, serverName: string, remoteName: string, description: string)

  class Registry {
    var tools: map<string, Tool>

    constructor ()
      ensures tools == map[]
    {
      tools := map[];
    }

    method Register(tool: Tool)
      modifies this
      ensures tools == old(tools)[tool.name := tool]
    {
      tools := tools[tool.name := tool];
    }
  }

  function ToolOf(m: ToolMapping): Tool {
    Tool(m.localName, m.serverName, m.remoteName, m.description)
  }

  function SafeServer(server: string): string {
    if SanitizedName(server) == "" then "server" else SanitizedName(server)
  }

  /** The name a tool asks for. */
  function BaseName(prefix: string, server: string, remote: string): string {
    prefix + "_" + SafeServer(server) + "_" + SanitizedName(remote)
  }

  /** The prefix, the server and the tool, in this order; a server whose name has nothing to keep is "server",
      and a prefix that has nothing to keep is "mcp". */
  lemma BaseInOrder(toolPrefix: string, server: string, remote: string)
    requires IsPlainName(remote) && (IsPlainName(server) || SanitizedName(server) == "")
    requires IsPlainName(toolPrefix) || SanitizedName(toolPrefix) == ""
    ensures BaseName(Prefix(toolPrefix), server, remote)
         == (if IsPlainName(toolPrefix) then ToLower(toolPrefix) else "mcp") + "_"
            + (if IsPlainName(server) then ToLower(server) else "server") + "_" + ToLower(remote)
  {
    PlainAlone(remote);
    if IsPlainName(server) {
      PlainAlone(server);
    }
    if IsPlainName(toolPrefix) {
      PlainAlone(toolPrefix);
    }
  }

  lemma PlainAlone(s: string)
    requires IsPlainName(s)
    ensures SanitizedName(s) == ToLower(s) && ToLower(s) != ""
  {
    PlainNameLowered("", s, "");
    assert "" + s + "" == s;
  }

  function BaseOf(prefix: string): (string, string) -> string {
    (server, remote) => BaseName(prefix, server, remote)
  }

  /** Written so that proofs which only pass a base on never unfold what it is. */
  ghost predicate IsBaseOf(baseOf: (string, string) -> string, prefix: string) {
    forall server, remote {:trigger BaseName(prefix, server, remote)} ::
      BaseName(prefix, server, remote) == baseOf(server, remote)
  }

  /** The registry after the mapped tools were registered in order. */
  function After(before: map<string, Tool>, done: seq<ToolMapping>): map<string, Tool> {
    if done == [] then before else
      var last := done[|done| - 1];
      After(before, done[..|done| - 1])[last.localName := ToolOf(last)]
  }

  /** Every tool got the fresh name of its base, given the names taken before it. */
  ghost predicate NamedInOrder(baseOf: (string, string) -> string, before: map<string, Tool>, done: seq<ToolMapping>) {
    done == [] ||
    var init, last := done[..|done| - 1], done[|done| - 1];
    && NamedInOrder(baseOf, before, init)
    && IsName(last.localName)
    && IsFreshName(After(before, init).Keys, baseOf(last.serverName, last.remoteName), last.localName)
  }

  lemma RunNext(baseOf: (string, string) -> string, before: map<string, Tool>, done: seq<ToolMapping>, m: ToolMapping)
    requires NamedInOrder(baseOf, before, done) && IsName(m.localName)
    requires IsFreshName(After(before, done).Keys, baseOf(m.serverName, m.remoteName), m.localName)
    ensures NamedInOrder(baseOf, before, done + [m])
    ensures After(before, done + [m]) == After(before, done)[m.localName := ToolOf(m)]
  {
    assert (done + [m])[..|done|] == done;
  }

  /** Nothing that was in the registry is lost or replaced, and every tool of the run is there under a name
      of its own in [a-z][a-z0-9_]*. */
  ghost predicate Extends(before: map<string, Tool>, after: map<string, Tool>, done: seq<ToolMapping>) {
    && (forall k | k in before :: k in after && after[k] == before[k])
    && (forall k | k in after :: k in before || exists i | 0 <= i < |done| :: done[i].localName == k)
    && (forall i | 0 <= i < |done| ::
          && IsName(done[i].localName) && done[i].localName !in before
          && done[i].localName in after && after[done[i].localName] == ToolOf(done[i]))
    && (forall i, j | 0 <= i < j < |done| :: done[i].localName != done[j].localName)
  }

  lemma ExtendsNext(before: map<string, Tool>, after: map<string, Tool>, done: seq<ToolMapping>, m: ToolMapping)
    requires Extends(before, after, done) && IsName(m.localName) && m.localName !in after
    ensures Extends(before, after[m.localName := ToolOf(m)], done + [m])
  {
    var done', after' := done + [m], after[m.localName := ToolOf(m)];
    forall k | k in after' && k !in before ensures exists i | 0 <= i < |done'| :: done'[i].localName == k {
      if k == m.localName {
        assert done'[|done|].localName == k;
      } else {
        var i :| 0 <= i < |done| && done[i].localName == k;
        assert done'[i].localName == k;
      }
    }
  }

  lemma {:induction false} RunExtends(baseOf: (string, string) -> string, before: map<string, Tool>, done: seq<ToolMapping>)
    requires NamedInOrder(baseOf, before, done)
    ensures Extends(before, After(before, done), done)
  {
    if done != [] {
      var init, last := done[..|done| - 1], done[|done| - 1];
      assert done == init + [last];
      RunExtends(baseOf, before, init);
      FreshIsUnused(After(before, init).Keys, baseOf(last.serverName, last.remoteName), last.localName);
      ExtendsNext(before, After(before, init), init, last);
    }
  }

  lemma FreshIsUnused(taken: set<string>, base: string, name: string)
    requires IsFreshName(taken, base, name)
    ensures name !in taken
  {}

  /** What a mapping says about the remote side. */
  function Remote(m: ToolMapping): (string, RemoteTool) {
    (m.serverName, RemoteTool(m.remoteName, m.description))
  }

  function Remotes(done: seq<ToolMapping>): seq<(string, RemoteTool)> {
    seq(|done|, i requires 0 <= i < |done| => Remote(done[i]))
  }

  /** A listed tool as it is registered, with its description trimmed. */
  function ListedTool(server: string, tool: RemoteTool): (string, RemoteTool) {
    (server, RemoteTool(tool.name, TrimSpace(tool.description)))
  }

  function Listed(server: string, tools: seq<RemoteTool>): seq<(string, RemoteTool)> {
    seq(|tools|, i requires 0 <= i < |tools| => ListedTool(server, tools[i]))
  }

  /** The tools of the servers before the first one that fails. */
  function AllListed(servers: seq<Server>): seq<(string, RemoteTool)> {
    if servers == [] || servers[0].tools.None? then []
    else Listed(servers[0].name, servers[0].tools.value) + AllListed(servers[1..])
  }

  predicate NoneFails(servers: seq<Server>) {
    forall i | 0 <= i < |servers| :: servers[i].tools.Some?
  }

  function ToolCount(servers: seq<Server>): nat
    requires NoneFails(servers)
  {
    if servers == [] then 0 else |servers[0].tools.value| + ToolCount(servers[1..])
  }

  lemma AllListedCount(servers: seq<Server>)
    requires NoneFails(servers)
    ensures |AllListed(servers)| == ToolCount(servers)
  {}

  lemma JoinedName(a: string, b: string)
    requires IsName(a) && AllNameChars(b)
    ensures IsName(a + "_" + b)
  {}

  lemma CandidateIsName(name: string, i: int)
    requires IsName(name) && i >= 0
    ensures IsName(Candidate(name, i))
  {
    JoinedName(name, PrintNat(i));
  }

  method LocalName(existing: set<string>, prefix: string, server: string, remote: string) returns (name: string)
    requires IsName(prefix)
    ensures IsName(name) && name !in existing
    ensures IsFreshName(existing, BaseName(prefix, server, remote), name)
  {
    var safeServer := SanitizeName(server);
    SanitizedIsName(server);
    if safeServer == "" {
      safeServer := "server";
    }
    var safe := SanitizeName(remote);
    SanitizedIsName(remote);
    JoinedName(prefix, safeServer);
    JoinedName(prefix + "_" + safeServer, safe);
    var base := prefix + "_" + safeServer + "_" + safe;
    name := UniqueToolName(existing, base);
    if base in existing {
      var i :| 2 <= i <= |existing| + 1 && name == Candidate(base, i) && name !in existing && TakenBelow(existing, base, i);
      CandidateIsName(base, i);
    }
  }

  method RegisterTool(reg: Registry, prefix: string, server: string, rt: RemoteTool, existing: set<string>,
                      ghost baseOf: (string, string) -> string)
    returns (m: ToolMapping)
    requires IsName(prefix) && IsBaseOf(baseOf, prefix) && existing == reg.tools.Keys
    modifies reg
    ensures IsName(m.localName) && m.localName !in existing
    ensures IsFreshName(existing, baseOf(m.serverName, m.remoteName), m.localName)
    ensures reg.tools == old(reg.tools)[m.localName := ToolOf(m)] && reg.tools.Keys == existing + {m.localName}
    ensures ToolOf(m) == Tool(m.localName, server, rt.name, TrimSpace(rt.description))
    ensures Remote(m) == ListedTool(server, rt)
  {
    var toolName := LocalName(existing, prefix, server, rt.name);
    m := ToolMapping(toolName, server, rt.name, TrimSpace(rt.description));
    reg.Register(ToolOf(m));
  }

  method RegisterServer(reg: Registry, prefix: string, server: string, remoteTools: seq<RemoteTool>,
                        existing: set<string>, mappings: seq<ToolMapping>,
                        ghost before: map<string, Tool>, ghost baseOf: (string, string) -> string)
    returns (existing': set<string>, mappings': seq<ToolMapping>)
    requires IsName(prefix) && IsBaseOf(baseOf, prefix) && existing == reg.tools.Keys
    requires reg.tools == After(before, mappings) && NamedInOrder(baseOf, before, mappings)
    modifies reg
    ensures existing' == reg.tools.Keys
    ensures reg.tools == After(before, mappings') && NamedInOrder(baseOf, before, mappings')
    ensures Remotes(mappings') == Remotes(mappings) + Listed(server, remoteTools)
  {
    existing', mappings' := existing, mappings;
    for j := 0 to |remoteTools|
      invariant existing' == reg.tools.Keys
      invariant reg.tools == After(before, mappings') && NamedInOrder(baseOf, before, mappings')
      invariant Remotes(mappings') == Remotes(mappings) + Listed(server, remoteTools[..j])
    {
      var m := RegisterTool(reg, prefix, server, remoteTools[j], existing', baseOf);
      RunNext(baseOf, before, mappings', m);
      ListedSoFar(mappings, mappings', m, server, remoteTools, j);
      existing' := existing' + {m.localName};
      mappings' := mappings' + [m];
    }
    assert remoteTools[..|remoteTools|] == remoteTools;
  }

  lemma ListedSoFar(start: seq<ToolMapping>, done: seq<ToolMapping>, m: ToolMapping, server: string,
                    tools: seq<RemoteTool>, j: nat)
    requires j < |tools| && Remotes(done) == Remotes(start) + Listed(server, tools[..j])
    requires Remote(m) == ListedTool(server, tools[j])
    ensures Remotes(done + [m]) == Remotes(start) + Listed(server, tools[..j + 1])
  {
    assert Remotes(done + [m]) == Remotes(done) + [Remote(m)];
    assert Listed(server, tools[..j + 1]) == Listed(server, tools[..j]) + [ListedTool(server, tools[j])];
    Associative(Remotes(start), Listed(server, tools[..j]), [Remote(m)]);
  }

  function Prefix(toolPrefix: string): string {
    if SanitizedName(toolPrefix) == "" then "mcp" else SanitizedName(toolPrefix)
  }

  /** RegisterFromFile, from the list of servers on: the manager's mappings and the number of registered
      tools, or nothing after a server failed, with the tools registered until then left in place. */
  method RegisterAll(reg: Registry, toolPrefix: string, servers: seq<Server>)
    returns (result: Option<(seq<ToolMapping>, nat)>, ghost done: seq<ToolMapping>)
    modifies reg
    ensures reg.tools == After(old(reg.tools), done) && Extends(old(reg.tools), reg.tools, done)
    ensures NamedInOrder(BaseOf(Prefix(toolPrefix)), old(reg.tools), done)
    ensures Remotes(done) == AllListed(servers)
    ensures result.Some? <==> NoneFails(servers)
    ensures result.Some? ==> result.value.0 == done && result.value.1 == |done| == ToolCount(servers)
  {
    var prefix := SanitizeName(toolPrefix);
    SanitizedIsName(toolPrefix);
    if prefix == "" {
      prefix := "mcp";
    }
    result, done := RegisterServers(reg, prefix, servers, BaseOf(prefix));
  }

  method RegisterServers(reg: Registry, prefix: string, servers: seq<Server>, ghost baseOf: (string, string) -> string)
    returns (result: Option<(seq<ToolMapping>, nat)>, ghost done: seq<ToolMapping>)
    requires IsName(prefix) && IsBaseOf(baseOf, prefix)
    modifies reg
    ensures reg.tools == After(old(reg.tools), done) && Extends(old(reg.tools), reg.tools, done)
    ensures NamedInOrder(baseOf, old(reg.tools), done)
    ensures Remotes(done) == AllListed(servers)
    ensures result.Some? <==> NoneFails(servers)
    ensures result.Some? ==> result.value.0 == done && result.value.1 == |done| == ToolCount(servers)
  {
    ghost var before := reg.tools;
    var existing, mappings := reg.tools.Keys, [];
    for i := 0 to |servers|
      invariant existing == reg.tools.Keys
      invariant reg.tools == After(before, mappings) && NamedInOrder(baseOf, before, mappings)
      invariant NoneFails(servers[..i])
      invariant Remotes(mappings) + AllListed(servers[i..]) == AllListed(servers)
    {
      var server := servers[i];
      assert servers[i..][0] == server && servers[i..][1..] == servers[i + 1..];
      if server.tools.None? {
        RunExtends(baseOf, before, mappings);
        return None, mappings;
      }
      ghost var rest := AllListed(servers[i + 1..]);
      Associative(Remotes(mappings), Listed(server.name, server.tools.value), rest);
      existing, mappings := RegisterServer(reg, prefix, server.name, server.tools.value, existing, mappings, before, baseOf);
    }
    assert servers[..|servers|] == servers;
    AllListedCount(servers);
    RunExtends(baseOf, before, mappings);
    return Some((mappings, |mappings|)), mappings;
  }
}
