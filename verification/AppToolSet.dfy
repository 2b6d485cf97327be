/** The tool set object that brings its registry up to date before every use. */
module AppToolSet {
  import opened Prelude
  import opened McpRegistry

  datatype Dispatch = Unavailable | Unknown | Call(entry: Entry)

  class AppToolSet {
    var toolRegistry: Registry
    var mcpToolSources: map<string, Source>

    ghost predicate Valid()
      reads this
    {
      SourcesOk(toolRegistry, mcpToolSources)
    }

    /** Built-in tools are registered first and all have different names. */
    constructor (builtIns: map<string, string>)
      ensures Valid() && toolRegistry == map n | n in builtIns :: BuiltIn(builtIns[n])
    {
      toolRegistry := map n | n in builtIns :: BuiltIn(builtIns[n]);
      mcpToolSources := map[];
    }

    method AddTools(naming: Naming, s: Server, desired: Registry, ghost before: seq<Listing>) returns (more: Registry)
      requires desired == FirstListings(before)
      ensures more == FirstListings(before + ListingsOfTools(naming, s, s.tools))
    {
      more := desired;
      ghost var sofar := before;
      assert before + [] == before;
      for i := 0 to |s.tools|
        invariant sofar == before + ListingsOfTools(naming, s, s.tools[..i])
        invariant more == FirstListings(sofar)
      {
        var listing := ListingOf(naming, s, s.tools[i]);
        assert s.tools[..i + 1][..i] == s.tools[..i];
        assert (sofar + [listing])[..|sofar|] == sofar;
        sofar := sofar + [listing];
        if listing.name !in more {
          more := more[listing.name := listing.entry];
        }
      }
      assert s.tools[..|s.tools|] == s.tools;
    }

    lemma NothingListed(naming: Naming)
      ensures FirstListings([]) == map[]
      ensures forall s: Server :: ListingsOfTools(naming, s, []) == []
    {
    }

    method DesiredTools(naming: Naming, servers: seq<Server>) returns (desired: Registry)
      ensures desired == Desired(naming, servers)
      ensures forall name :: name in desired <==> Offered(naming, servers, name)
      ensures forall name, i, j :: FirstOffer(naming, servers, name, i, j) ==>
                name in desired && desired[name] == EntryOf(servers[i], j)
    {
      hide FirstListings;
      hide ListingsOfTools;
      NothingListed(naming);
      desired := map[];
      for i := 0 to |servers|
        invariant desired == FirstListings(Listings(naming, servers[..i]))
      {
        ghost var before := Listings(naming, servers[..i]);
        assert servers[..i + 1][..i] == servers[..i];
        assert before + [] == before;
        if servers[i].enabled {
          desired := AddTools(naming, servers[i], desired, before);
        }
      }
      assert servers[..|servers|] == servers;
      forall name
        ensures name in desired <==> Offered(naming, servers, name)
        ensures forall i, j :: FirstOffer(naming, servers, name, i, j) ==>
                  name in desired && desired[name] == EntryOf(servers[i], j)
      {
        DesiredIsOffered(naming, servers, name);
      }
    }

    /** Forgets every MCP tool that is no longer wanted. */
    method DropUnwanted(desired: Registry)
      requires Valid()
      modifies this
      ensures Valid()
      ensures toolRegistry == map n | n in old(toolRegistry) && (IsBuiltIn(old(toolRegistry), n) || n in desired) :: old(toolRegistry)[n]
    {
      var names := mcpToolSources.Keys;
      while names != {}
        invariant Valid()
        invariant names <= mcpToolSources.Keys
        invariant forall n :: n in toolRegistry ==> n in old(toolRegistry) && toolRegistry[n] == old(toolRegistry)[n]
        invariant forall n :: n in old(toolRegistry) && n !in toolRegistry ==> old(toolRegistry)[n].Mcp? && n !in desired
        invariant forall n :: n in toolRegistry && n !in desired && n !in names ==> toolRegistry[n].BuiltIn?
        decreases names
      {
        var n :| n in names;
        names := names - {n};
        if n !in desired {
          mcpToolSources := mcpToolSources - {n};
          toolRegistry := toolRegistry - {n};
        }
      }
    }

    /** Registers what is wanted and not there yet from the same source, unless a built-in has the name. */
    method AddWanted(desired: Registry)
      requires Valid() && AllMcp(desired)
      modifies this
      ensures Valid()
      ensures Binds(old(toolRegistry), desired, toolRegistry)
    {
      var names := desired.Keys;
      ghost var before := toolRegistry;
      while names != {}
        invariant Valid()
        invariant names <= desired.Keys
        invariant forall n :: n in toolRegistry <==> n in before || (n in desired && n !in names)
        invariant forall n :: n in toolRegistry ==>
                    toolRegistry[n] == if IsBuiltIn(before, n) || n !in desired || n in names then before[n]
                                       else Bound(before, desired, n)
        decreases names
      {
        var n :| n in names;
        names := names - {n};
        var source := desired[n].source;
        if n in mcpToolSources && mcpToolSources[n] == source && n in toolRegistry {
          continue;
        }
        if n in toolRegistry && n !in mcpToolSources {
          continue;
        }
        toolRegistry := toolRegistry[n := desired[n]];
        mcpToolSources := mcpToolSources[n := source];
      }
    }

    method SyncMcpTools(naming: Naming, servers: seq<Server>)
      requires Valid()
      modifies this
      ensures Valid() && toolRegistry == Sync(naming, old(toolRegistry), servers)
      ensures FollowsList(naming, old(toolRegistry), servers, toolRegistry)
    {
      SyncFollowsList(naming, toolRegistry, servers);
      ListingsAreMcp(naming, servers);
      var desired := DesiredTools(naming, servers);
      DropUnwanted(desired);
      ghost var dropped := toolRegistry;
      AddWanted(desired);
      DropThenBind(old(toolRegistry), desired, dropped, toolRegistry);
    }

    /** The names a model is offered. */
    method ToolNames(naming: Naming, servers: seq<Server>, available: set<string>) returns (names: set<string>)
      requires Valid()
      modifies this
      ensures Valid() && toolRegistry == Sync(naming, old(toolRegistry), servers)
      ensures forall name :: name in names <==>
                name in available && (IsBuiltIn(old(toolRegistry), name) || Offered(naming, servers, name))
    {
      SyncMcpTools(naming, servers);
      names := set n | n in toolRegistry && n in available;
    }

    /** A call reaches the built-in of that name, or the source the current list gives for it. */
    method ExecuteTool(naming: Naming, servers: seq<Server>, available: set<string>, name: string) returns (d: Dispatch)
      requires Valid()
      modifies this
      ensures Valid() && toolRegistry == Sync(naming, old(toolRegistry), servers)
      ensures d == Unavailable <==> name !in available
      ensures d == Unknown <==>
                name in available && !IsBuiltIn(old(toolRegistry), name) && !Offered(naming, servers, name)
      ensures d.Call? && IsBuiltIn(old(toolRegistry), name) ==> d.entry == old(toolRegistry)[name]
      ensures d.Call? && !IsBuiltIn(old(toolRegistry), name) ==>
                forall i, j :: FirstOffer(naming, servers, name, i, j) ==>
                  d.entry.Mcp? && d.entry.source == EntryOf(servers[i], j).source
    {
      SyncMcpTools(naming, servers);
      if name !in available { return Unavailable; }
      if name !in toolRegistry { return Unknown; }
      d := Call(toolRegistry[name]);
    }
  }
}
