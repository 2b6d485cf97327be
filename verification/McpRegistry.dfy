/** The chat tool set: built-in tools, and MCP tools that follow the current list of servers. */
module McpRegistry {
  import opened Prelude

  /** `text` stands for a tool's description and input schema. */
  datatype McpTool = McpTool(name: string, text: string, publicName: string)

  datatype Server = Server(
    serverId: string, title: string, url: string, prefix: string, authRef: Option<string>, enabled: bool, tools: seq<McpTool>)

  /** Everything a call of an MCP tool is sent with. */
  datatype Source = Source(serverId: string, url: string, authRef: Option<string>, toolName: string)

  datatype Entry = BuiltIn(text: string) | Mcp(source: Source, title: string, text: string)

  type Registry = map<string, Entry>

  /** How a prefix and a tool name make a public name when a listing has none; any rule will do. */
  type Naming = (string, string) -> string

  datatype Listing = Listing(name: string, entry: Entry)

  function PublicName(naming: Naming, s: Server, t: McpTool): string {
    if t.publicName != "" then t.publicName else naming(s.prefix, t.name)
  }

  function ListingOf(naming: Naming, s: Server, t: McpTool): Listing {
    Listing(PublicName(naming, s, t), Mcp(Source(s.serverId, s.url, s.authRef, t.name), s.title, t.text))
  }

  function ListingsOfTools(naming: Naming, s: Server, tools: seq<McpTool>): seq<Listing> {
    if tools == [] then []
    else ListingsOfTools(naming, s, tools[..|tools| - 1]) + [ListingOf(naming, s, tools[|tools| - 1])]
  }

  /** The tools of the enabled servers, in order. */
  function Listings(naming: Naming, servers: seq<Server>): seq<Listing> {
    if servers == [] then []
    else
      var s := servers[|servers| - 1];
      Listings(naming, servers[..|servers| - 1]) + ListingsOfTools(naming, s, if s.enabled then s.tools else [])
  }

  /** The first listing of each name counts. */
  function FirstListings(ls: seq<Listing>): Registry {
    if ls == [] then map[]
    else
      var before, last := FirstListings(ls[..|ls| - 1]), ls[|ls| - 1];
      if last.name in before then before else before[last.name := last.entry]
  }

  function Desired(naming: Naming, servers: seq<Server>): Registry { FirstListings(Listings(naming, servers)) }

  predicate FirstAt(ls: seq<Listing>, name: string, i: int) {
    0 <= i < |ls| && ls[i].name == name && forall j :: 0 <= j < i ==> ls[j].name != name
  }

  predicate Listed(ls: seq<Listing>, name: string) { exists i :: 0 <= i < |ls| && ls[i].name == name }

  lemma {:induction false} FirstListingsAreFirst(ls: seq<Listing>, name: string)
    ensures name in FirstListings(ls) <==> Listed(ls, name)
    ensures forall i :: FirstAt(ls, name, i) ==> name in FirstListings(ls) && FirstListings(ls)[name] == ls[i].entry
  {
    if ls != [] {
      var n := |ls| - 1;
      FirstListingsAreFirst(ls[..n], name);
      assert Listed(ls[..n], name) ==> Listed(ls, name) by {
        if Listed(ls[..n], name) {
          var i :| 0 <= i < n && ls[..n][i].name == name;
          assert ls[i].name == name;
        }
      }
      assert Listed(ls, name) && ls[n].name != name ==> Listed(ls[..n], name) by {
        if Listed(ls, name) && ls[n].name != name {
          var i :| 0 <= i < |ls| && ls[i].name == name;
          assert ls[..n][i].name == name;
        }
      }
      forall i | FirstAt(ls, name, i) ensures name in FirstListings(ls) && FirstListings(ls)[name] == ls[i].entry {
        if i < n {
          assert FirstAt(ls[..n], name, i);
        }
      }
    }
  }

  lemma ListingsAreMcp(naming: Naming, servers: seq<Server>)
    ensures forall n :: n in Desired(naming, servers) ==> Desired(naming, servers)[n].Mcp?
  {
    AllListedMcp(naming, servers);
    AllFirstMcp(Listings(naming, servers));
  }

  lemma {:induction false} AllFirstMcp(ls: seq<Listing>)
    requires forall i :: 0 <= i < |ls| ==> ls[i].entry.Mcp?
    ensures forall n :: n in FirstListings(ls) ==> FirstListings(ls)[n].Mcp?
  {
    if ls != [] { AllFirstMcp(ls[..|ls| - 1]); }
  }

  lemma {:induction false} AllToolsMcp(naming: Naming, s: Server, tools: seq<McpTool>)
    ensures forall i :: 0 <= i < |ListingsOfTools(naming, s, tools)| ==> ListingsOfTools(naming, s, tools)[i].entry.Mcp?
  {
    if tools != [] { AllToolsMcp(naming, s, tools[..|tools| - 1]); }
  }

  lemma {:induction false} AllListedMcp(naming: Naming, servers: seq<Server>)
    ensures forall i :: 0 <= i < |Listings(naming, servers)| ==> Listings(naming, servers)[i].entry.Mcp?
  {
    if servers != [] {
      var s := servers[|servers| - 1];
      AllListedMcp(naming, servers[..|servers| - 1]);
      AllToolsMcp(naming, s, if s.enabled then s.tools else []);
    }
  }

  predicate IsBuiltIn(r: Registry, name: string) { name in r && r[name].BuiltIn? }

  /** An entry stays when its source is the one wanted, even if its text is not. */
  function Bound(r: Registry, wanted: Registry, name: string): Entry
    requires name in wanted && wanted[name].Mcp?
  {
    if name in r && r[name].Mcp? && r[name].source == wanted[name].source then r[name] else wanted[name]
  }

  predicate AllMcp(wanted: Registry) { forall n :: n in wanted ==> wanted[n].Mcp? }

  /** What a sync leaves: built-ins, and everything wanted that no built-in holds. */
  function Synced(r: Registry, wanted: Registry): Registry
    requires AllMcp(wanted)
  {
    map n | n in r.Keys + wanted.Keys && (IsBuiltIn(r, n) || n in wanted) ::
      if IsBuiltIn(r, n) then r[n] else Bound(r, wanted, n)
  }

  /** The recorded sources are those of the MCP entries. */
  predicate SourcesOk(r: Registry, sources: map<string, Source>) {
    (forall n :: n in sources ==> n in r && r[n].Mcp? && r[n].source == sources[n]) &&
    forall n :: n in r && r[n].Mcp? ==> n in sources
  }

  function Sync(naming: Naming, r: Registry, servers: seq<Server>): Registry {
    ListingsAreMcp(naming, servers);
    Synced(r, Desired(naming, servers))
  }

  function SyncAll(naming: Naming, r: Registry, history: seq<seq<Server>>): Registry
    decreases |history|
  {
    if history == [] then r else Sync(naming, SyncAll(naming, r, history[..|history| - 1]), history[|history| - 1])
  }

  ghost predicate SameBuiltIns(a: Registry, b: Registry) {
    forall n :: (IsBuiltIn(a, n) <==> IsBuiltIn(b, n)) && (IsBuiltIn(a, n) ==> a[n] == b[n])
  }

  /** Dropping what is not wanted and then binding what is, is a sync. */
  lemma DropThenBind(r: Registry, wanted: Registry, dropped: Registry, bound: Registry)
    requires AllMcp(wanted)
    requires dropped == map n | n in r && (IsBuiltIn(r, n) || n in wanted) :: r[n]
    requires Binds(dropped, wanted, bound)
    ensures bound == Synced(r, wanted)
  {
  }

  predicate Binds(before: Registry, wanted: Registry, after: Registry)
    requires AllMcp(wanted)
  {
    after.Keys == before.Keys + wanted.Keys &&
    forall n :: n in after ==>
      after[n] == if IsBuiltIn(before, n) || n !in wanted then before[n] else Bound(before, wanted, n)
  }

  lemma {:induction false} BuiltInsUntouched(naming: Naming, r: Registry, history: seq<seq<Server>>)
    ensures SameBuiltIns(r, SyncAll(naming, r, history))
    decreases |history|
  {
    if history != [] {
      var servers := history[|history| - 1];
      BuiltInsUntouched(naming, r, history[..|history| - 1]);
      ListingsAreMcp(naming, servers);
    }
  }

  /** The name a tool is offered under: its own public name, or if that is empty the one made from the
      server's prefix. */
  predicate GoesBy(naming: Naming, s: Server, t: McpTool, name: string) {
    name == if t.publicName != "" then t.publicName else naming(s.prefix, t.name)
  }

  /** The i-th server of the list is enabled, and its j-th tool goes by this name. */
  predicate Offers(naming: Naming, servers: seq<Server>, name: string, i: int, j: int) {
    0 <= i < |servers| && servers[i].enabled && 0 <= j < |servers[i].tools| &&
    GoesBy(naming, servers[i], servers[i].tools[j], name)
  }

  ghost predicate Offered(naming: Naming, servers: seq<Server>, name: string) {
    exists i, j :: Offers(naming, servers, name, i, j)
  }

  /** No server before, and no tool of the same server before, offers the name. */
  ghost predicate FirstOffer(naming: Naming, servers: seq<Server>, name: string, i: int, j: int) {
    Offers(naming, servers, name, i, j) &&
    forall h, k :: Offers(naming, servers, name, h, k) ==> i < h || (i == h && j <= k)
  }

  /** What the j-th tool of a server is registered as. */
  function EntryOf(s: Server, j: int): Entry
    requires 0 <= j < |s.tools|
  {
    Mcp(Source(s.serverId, s.url, s.authRef, s.tools[j].name), s.title, s.tools[j].text)
  }

  lemma {:induction false} FirstListingsConcat(a: seq<Listing>, b: seq<Listing>)
    ensures FirstListings(a + b) == FirstListings(b) + FirstListings(a)
  {
    if b == [] {
      assert a + b == a;
    } else {
      var n := |b| - 1;
      assert (a + b)[..|a| + n] == a + b[..n];
      FirstListingsConcat(a, b[..n]);
    }
  }

  /** Among the first tools of one server, the first that goes by a name holds it. */
  lemma OneMoreListing(ls: seq<Listing>, l: Listing)
    ensures var before := FirstListings(ls);
            FirstListings(ls + [l]) == if l.name in before then before else before[l.name := l.entry]
  {
    assert (ls + [l])[..|ls|] == ls;
  }

  lemma OneMoreTool(naming: Naming, s: Server, n: nat)
    requires n < |s.tools|
    ensures ListingsOfTools(naming, s, s.tools[..n + 1]) ==
            ListingsOfTools(naming, s, s.tools[..n]) + [ListingOf(naming, s, s.tools[n])]
  {
    assert s.tools[..n + 1][..n] == s.tools[..n];
  }

  /** The first of the first n tools that goes by the name. */
  predicate FirstBy(naming: Naming, s: Server, n: nat, name: string, j: int)
    requires n <= |s.tools|
  {
    0 <= j < n && GoesBy(naming, s, s.tools[j], name) && forall k :: 0 <= k < j ==> !GoesBy(naming, s, s.tools[k], name)
  }

  predicate SomeBy(naming: Naming, s: Server, n: nat, name: string)
    requires n <= |s.tools|
  {
    exists j :: 0 <= j < n && GoesBy(naming, s, s.tools[j], name)
  }

  lemma OneMoreBy(naming: Naming, s: Server, n: nat, name: string)
    requires n < |s.tools|
    ensures SomeBy(naming, s, n + 1, name) <==> SomeBy(naming, s, n, name) || GoesBy(naming, s, s.tools[n], name)
    ensures forall j :: FirstBy(naming, s, n + 1, name, j) ==>
              if j < n then FirstBy(naming, s, n, name, j)
              else j == n && !SomeBy(naming, s, n, name) && GoesBy(naming, s, s.tools[n], name)
  {
    forall j | FirstBy(naming, s, n + 1, name, j)
      ensures if j < n then FirstBy(naming, s, n, name, j)
              else j == n && !SomeBy(naming, s, n, name) && GoesBy(naming, s, s.tools[n], name)
    {
      if j < n { assert FirstBy(naming, s, n, name, j); }
    }
  }

  lemma {:induction false} FirstToolHolds(naming: Naming, s: Server, n: nat, name: string)
    requires n <= |s.tools|
    ensures var held := FirstListings(ListingsOfTools(naming, s, s.tools[..n]));
            (name in held <==> SomeBy(naming, s, n, name)) &&
            forall j :: FirstBy(naming, s, n, name, j) ==> name in held && held[name] == EntryOf(s, j)
  {
    hide FirstListings;
    hide ListingsOfTools;
    if n == 0 {
      NoToolsListed(naming, s);
    } else {
      FirstToolHolds(naming, s, n - 1, name);
      OneMoreBy(naming, s, n - 1, name);
      hide FirstBy;
      hide SomeBy;
      OneMoreTool(naming, s, n - 1);
      OneMoreListing(ListingsOfTools(naming, s, s.tools[..n - 1]), ListingOf(naming, s, s.tools[n - 1]));
      forall j | FirstBy(naming, s, n, name, j) ensures 0 <= j < n { FirstIsOne(naming, s, n, name, j); }
    }
  }

  lemma FirstIsOne(naming: Naming, s: Server, n: nat, name: string, j: int)
    requires n <= |s.tools| && FirstBy(naming, s, n, name, j)
    ensures 0 <= j < n
  {
  }

  /** Wanted is exactly what is offered, by the first that offers it. */
  lemma {:induction false} DesiredIsOffered(naming: Naming, servers: seq<Server>, name: string)
    ensures name in Desired(naming, servers) <==> Offered(naming, servers, name)
    ensures forall i, j :: FirstOffer(naming, servers, name, i, j) ==>
              name in Desired(naming, servers) && Desired(naming, servers)[name] == EntryOf(servers[i], j)
  {
    hide FirstListings;
    hide ListingsOfTools;
    if servers == [] {
      NothingListed();
    } else {
      var n := |servers| - 1;
      var init, s := servers[..n], servers[n];
      var tools := if s.enabled then s.tools else [];
      DesiredIsOffered(naming, init, name);
      FirstListingsConcat(Listings(naming, init), ListingsOfTools(naming, s, tools));
      OffersSplit(naming, servers, name);
      if s.enabled {
        assert s.tools[..|s.tools|] == s.tools;
        FirstToolHolds(naming, s, |s.tools|, name);
      } else {
        NoToolsListed(naming, s);
      }
      FirstOffersSplit(naming, servers, name);
    }
  }

  lemma NothingListed()
    ensures FirstListings([]) == map[]
  {
  }

  lemma NoToolsListed(naming: Naming, s: Server)
    ensures FirstListings(ListingsOfTools(naming, s, [])) == map[]
  {
  }

  lemma OffersSplit(naming: Naming, servers: seq<Server>, name: string)
    requires servers != []
    ensures var n := |servers| - 1;
            Offered(naming, servers, name) <==>
              Offered(naming, servers[..n], name) ||
              (servers[n].enabled && exists j :: 0 <= j < |servers[n].tools| && GoesBy(naming, servers[n], servers[n].tools[j], name))
  {
    var n := |servers| - 1;
    if Offered(naming, servers, name) {
      var i, j :| Offers(naming, servers, name, i, j);
      if i < n { assert Offers(naming, servers[..n], name, i, j); }
    }
    if Offered(naming, servers[..n], name) {
      var i, j :| Offers(naming, servers[..n], name, i, j);
      assert Offers(naming, servers, name, i, j);
    }
    if j :| servers[n].enabled && 0 <= j < |servers[n].tools| && GoesBy(naming, servers[n], servers[n].tools[j], name) {
      assert Offers(naming, servers, name, n, j);
    }
  }

  lemma FirstOffersSplit(naming: Naming, servers: seq<Server>, name: string)
    requires servers != []
    ensures var n := |servers| - 1;
            forall i, j :: FirstOffer(naming, servers, name, i, j) ==>
              if i < n then FirstOffer(naming, servers[..n], name, i, j)
              else i == n && servers[n].enabled && !Offered(naming, servers[..n], name) && 0 <= j < |servers[n].tools| &&
                   GoesBy(naming, servers[n], servers[n].tools[j], name) &&
                   forall k :: 0 <= k < j ==> !GoesBy(naming, servers[n], servers[n].tools[k], name)
  {
    var n := |servers| - 1;
    forall i, j, h, k | FirstOffer(naming, servers, name, i, j) && Offers(naming, servers[..n], name, h, k)
      ensures i < h || (i == h && j <= k)
    {
      assert Offers(naming, servers, name, h, k);
    }
    forall i, j, k | FirstOffer(naming, servers, name, i, j) && i == n && 0 <= k < j
      ensures !GoesBy(naming, servers[n], servers[n].tools[k], name)
    {
      assert Offers(naming, servers, name, n, k) <==> GoesBy(naming, servers[n], servers[n].tools[k], name);
    }
  }

  /** A name that is offered is first offered somewhere. */
  lemma {:induction false} FirstOfferExists(naming: Naming, servers: seq<Server>, name: string, i: int, j: int)
    requires Offers(naming, servers, name, i, j)
    ensures exists h, k :: FirstOffer(naming, servers, name, h, k)
    decreases i, j
  {
    if h, k :| Offers(naming, servers, name, h, k) && (h < i || (h == i && k < j)) {
      FirstOfferExists(naming, servers, name, h, k);
    } else {
      assert FirstOffer(naming, servers, name, i, j);
    }
  }

  /** What a registry holds after a sync, read off the list of servers: a name is an MCP tool exactly if
      an enabled server offers it and no built-in holds it; it is what the first offer makes it, with
      the old texts if the source is the same; and built-ins are as they were. */
  ghost predicate FollowsList(naming: Naming, before: Registry, servers: seq<Server>, after: Registry) {
    SameBuiltIns(before, after) &&
    (forall name :: (name in after && after[name].Mcp?) <==> (!IsBuiltIn(before, name) && Offered(naming, servers, name))) &&
    forall name, i, j :: FirstOffer(naming, servers, name, i, j) && !IsBuiltIn(before, name) ==>
      name in after && after[name].Mcp? && after[name].source == EntryOf(servers[i], j).source &&
      after[name] == if name in before && before[name].Mcp? && before[name].source == EntryOf(servers[i], j).source
                     then before[name] else EntryOf(servers[i], j)
  }

  lemma SyncFollowsList(naming: Naming, r: Registry, servers: seq<Server>)
    ensures FollowsList(naming, r, servers, Sync(naming, r, servers))
  {
    hide Desired;
    hide Offered;
    ListingsAreMcp(naming, servers);
    forall name
      ensures name in Desired(naming, servers) <==> Offered(naming, servers, name)
      ensures forall i, j :: FirstOffer(naming, servers, name, i, j) ==>
                name in Desired(naming, servers) && Desired(naming, servers)[name] == EntryOf(servers[i], j)
    {
      DesiredIsOffered(naming, servers, name);
    }
  }

  /** Main result: whatever server lists came before, a sync leaves the built-ins as they always were,
      and as MCP tools exactly the names an enabled server of the current list offers and no built-in
      holds, each bound to the source of the first such tool in the list. */
  lemma SyncFollowsCurrentList(naming: Naming, r: Registry, history: seq<seq<Server>>, servers: seq<Server>)
    ensures var before, after := SyncAll(naming, r, history), SyncAll(naming, r, history + [servers]);
            SameBuiltIns(r, after) && FollowsList(naming, before, servers, after)
  {
    assert (history + [servers])[..|history|] == history;
    BuiltInsUntouched(naming, r, history + [servers]);
    SyncFollowsList(naming, SyncAll(naming, r, history), servers);
  }

  /** Main result: syncing again with the same list changes nothing, texts included. */
  lemma SecondSyncChangesNothing(naming: Naming, r: Registry, servers: seq<Server>)
    ensures Sync(naming, Sync(naming, r, servers), servers) == Sync(naming, r, servers)
  {
    ListingsAreMcp(naming, servers);
  }

  /** Same names, same built-ins, same sources: only texts of MCP tools may differ. */
  predicate SameUpToText(a: Registry, b: Registry) {
    a.Keys == b.Keys &&
    forall n :: n in a ==> if a[n].BuiltIn? then a[n] == b[n] else b[n].Mcp? && a[n].source == b[n].source
  }

  /** Main result: two registries with the same built-ins agree after a sync with the same list, whatever
      each went through before. */
  lemma OnlyCurrentListMatters(
    naming: Naming, r: Registry, one: seq<seq<Server>>, other: seq<seq<Server>>, servers: seq<Server>)
    ensures SameUpToText(Sync(naming, SyncAll(naming, r, one), servers), Sync(naming, SyncAll(naming, r, other), servers))
  {
    BuiltInsUntouched(naming, r, one);
    BuiltInsUntouched(naming, r, other);
    ListingsAreMcp(naming, servers);
  }
}
