/** The three listings of the seven tools, and the proxy's routing table
    against its own listing. */
module Listings {
  import opened Python
  import opened Mcp
  import McpServer
  import LocalServer
  import CloudProxy

  /** A tool as the `mcp` package sends it in a `tools/list` result. */
  function ToolJson(t: Tool): Json {
    JObject([("name", JString(t.name)), ("description", JString(t.description)), ("inputSchema", t.inputSchema)])
  }

  /** The cloud server and the local server give a tool the same description. */
  lemma ServerDescriptionsAgree(k: ToolKind)
    ensures McpServer.Description(k) == LocalServer.Description(k)
  {
  }

  /** The proxy's description of a tool is the local one with " (Cloud)" added. */
  lemma ProxyDescriptionsAgree(k: ToolKind)
    ensures CloudProxy.Description(k) == LocalServer.Description(k) + " (Cloud)"
  {
    match k
    case RandomNumber => assert CloudProxy.Description(RandomNumber) == LocalServer.Description(RandomNumber) + " (Cloud)";
    case RandomNumberList => assert CloudProxy.Description(RandomNumberList) == LocalServer.Description(RandomNumberList) + " (Cloud)";
    case RandomChoice => assert CloudProxy.Description(RandomChoice) == LocalServer.Description(RandomChoice) + " (Cloud)";
    case MathAdd => assert CloudProxy.Description(MathAdd) == LocalServer.Description(MathAdd) + " (Cloud)";
    case MathSubtract => assert CloudProxy.Description(MathSubtract) == LocalServer.Description(MathSubtract) + " (Cloud)";
    case MathMultiply => assert CloudProxy.Description(MathMultiply) == LocalServer.Description(MathMultiply) + " (Cloud)";
    case MathDivide => assert CloudProxy.Description(MathDivide) == LocalServer.Description(MathDivide) + " (Cloud)";
  }

  /** The three copies of a tool's `inputSchema` are the same. */
  lemma SchemasAgree(k: ToolKind)
    ensures McpServer.InputSchema(k) == LocalServer.InputSchema(k)
    ensures CloudProxy.InputSchema(k) == LocalServer.InputSchema(k)
  {
  }

  /** The three listings give the same seven names in the same order and the
      same schemas; the cloud server's registry is the local listing as JSON,
      and the proxy's descriptions are the local ones marked " (Cloud)". */
  lemma ListingsAgree()
    ensures var local := LocalServer.HandleListTools();
            var proxy := CloudProxy.HandleListTools();
            && |local| == 7 && |proxy| == 7
            && McpServer.ListTools() == JObject([("tools", JArray(seq(7, i requires 0 <= i < 7 => ToolJson(local[i]))))])
            && forall i :: 0 <= i < 7 ==>
                 && proxy[i].name == local[i].name
                 && proxy[i].description == local[i].description + " (Cloud)"
                 && proxy[i].inputSchema == local[i].inputSchema
  {
    var local := LocalServer.HandleListTools();
    var proxy := CloudProxy.HandleListTools();
    var entries := seq(|AllTools|, i requires 0 <= i < |AllTools| => McpServer.ToolEntry(AllTools[i]));
    var expected := seq(7, i requires 0 <= i < 7 => ToolJson(local[i]));
    forall i | 0 <= i < 7
      ensures entries[i] == expected[i]
      ensures proxy[i].description == local[i].description + " (Cloud)"
      ensures proxy[i].inputSchema == local[i].inputSchema
    {
      ServerDescriptionsAgree(AllTools[i]);
      ProxyDescriptionsAgree(AllTools[i]);
      SchemasAgree(AllTools[i]);
    }
    assert entries == expected;
  }

  /** The keys of `endpoint_map` are the names of the seven tools. */
  lemma EndpointKeys()
    ensures forall name :: name in CloudProxy.EndpointMap <==> KindOf(name).Some?
  {
    forall name | KindOf(name).Some? ensures name in CloudProxy.EndpointMap {
      match KindOf(name).value
      case RandomNumber =>
      case RandomNumberList =>
      case RandomChoice =>
      case MathAdd =>
      case MathSubtract =>
      case MathMultiply =>
      case MathDivide =>
    }
  }

  /** The names in a listing of the seven tools are the names of the seven tools. */
  lemma ListedNames()
    ensures forall name :: name in ToolNames() <==> KindOf(name).Some?
  {
    var names := ToolNames();
    forall name | KindOf(name).Some? ensures name in names {
      var k := KindOf(name).value;
      AllToolsComplete(k);
      var i :| 0 <= i < 7 && AllTools[i] == k;
      assert names[i] == ToolName(k);
    }
  }

  /** `endpoint_map` routes exactly the names the proxy lists. */
  lemma EndpointsMatchListing()
    ensures forall name :: name in CloudProxy.EndpointMap <==> name in Names(CloudProxy.HandleListTools())
  {
    EndpointKeys();
    ListedNames();
  }

  /** `endpoint_map` gives each tool a path of its own. */
  lemma EndpointsDistinct()
    ensures forall x, y :: x in CloudProxy.EndpointMap && y in CloudProxy.EndpointMap && x != y ==>
              CloudProxy.EndpointMap[x] != CloudProxy.EndpointMap[y]
  {
  }
}
