/** The tool list of `src/docs_doctor/tools.py`: one package expert tool
    per row of the `packages` table, built when the module is loaded. The
    tools themselves are those of `AgentTools`. */
module DocsDoctorTools {
  import opened Common
  import opened Catalog
  import opened AgentTools

  /** `TOOLS`: the catalog query is not guarded, so a failed fetch is an
      error when the module is loaded; otherwise one expert tool per row. */
  function CatalogTools(fetched: Result<seq<PackageRecord>>): (r: Result<seq<Tool>>)
    ensures r.Success? <==> fetched.Success?
    ensures r.Failure? ==> r.message == fetched.message
    ensures r.Success? ==> |r.value| == |fetched.value|
  {
    match fetched
    case Failure(e) => Failure(e)
    case Success(rows) => Success(ExpertTools(rows))
  }

  /** The loaded list holds an expert tool for a package exactly when the
      package is a catalog row, and holds no generic tool. */
  lemma CatalogToolsCoverCatalog(rows: seq<PackageRecord>, t: Tool)
    ensures t in CatalogTools(Success(rows)).value <==> t.ExpertTool? && t.package in rows
  {
    var tools := CatalogTools(Success(rows)).value;
    if t in tools {
      var i :| 0 <= i < |tools| && tools[i] == t;
      assert t.package == rows[i];
    }
    if t.ExpertTool? && t.package in rows {
      var i :| 0 <= i < |rows| && rows[i] == t.package;
      assert tools[i] == t;
    }
  }

  /** The tool at position `i` is the expert for row `i`, so the list keeps
      catalog order. */
  lemma CatalogToolsInOrder(rows: seq<PackageRecord>, i: nat)
    requires i < |rows|
    ensures CatalogTools(Success(rows)).value[i] == ExpertTool(rows[i])
    ensures ToolName(CatalogTools(Success(rows)).value[i]) == rows[i].packageName + "_expert_tool"
  {
  }

  predicate DistinctPackageNames(rows: seq<PackageRecord>) {
    forall i, j :: 0 <= i < j < |rows| ==> rows[i].packageName != rows[j].packageName
  }

  predicate DistinctToolNames(tools: seq<Tool>) {
    forall i, j :: 0 <= i < j < |tools| ==> ToolName(tools[i]) != ToolName(tools[j])
  }

  /** The model sees tools with pairwise different names exactly when the
      catalog rows have pairwise different `package_name`s. */
  lemma CatalogToolNamesDistinct(rows: seq<PackageRecord>)
    ensures DistinctToolNames(CatalogTools(Success(rows)).value) <==> DistinctPackageNames(rows)
  {
    var tools := CatalogTools(Success(rows)).value;
    if DistinctPackageNames(rows) {
      forall i, j | 0 <= i < j < |tools| ensures ToolName(tools[i]) != ToolName(tools[j]) {
        if ToolName(tools[i]) == ToolName(tools[j]) {
          ExpertToolNamesDistinct(tools[i], tools[j]);
        }
      }
    }
    if DistinctToolNames(tools) {
      forall i, j | 0 <= i < j < |rows| ensures rows[i].packageName != rows[j].packageName {
        assert ToolName(tools[i]) != ToolName(tools[j]);
      }
    }
  }
}
