/**
 * The dashboard's two path-listing helpers. The filesystem is an input:
 * `existing` is the set of paths `os.path.exists` accepts, and `listings`
 * maps each directory `os.listdir` can read to the names it returns, in order.
 */
module AppFiles {
  import PyPath
  import PyText
  import Seqs

  function AnalysisResultsDir(outputDir: string): string {
    PyPath.Join(outputDir, "analysis_results")
  }

  function OptimizationResultsDir(outputDir: string): string {
    PyPath.Join(outputDir, "optimization_results")
  }

  function SystemReportPath(outputDir: string): string {
    PyPath.Join(outputDir, "system_summary_report.md")
  }

  function EdaReportPath(outputDir: string): string {
    PyPath.Join(AnalysisResultsDir(outputDir), "eda_summary_report.md")
  }

  function DecisionReportPath(outputDir: string): string {
    PyPath.Join(OptimizationResultsDir(outputDir), "decision_optimization_report.md")
  }

  /**
   * `get_report_files()`: the keys "system", "eda" and "decision", each
   * present exactly when its fixed report path exists, mapped to that path.
   */
  method GetReportFiles(outputDir: string, existing: set<string>) returns (reports: map<string, string>)
    ensures reports.Keys <= {"system", "eda", "decision"}
    ensures "system" in reports <==> SystemReportPath(outputDir) in existing
    ensures "eda" in reports <==> EdaReportPath(outputDir) in existing
    ensures "decision" in reports <==> DecisionReportPath(outputDir) in existing
    ensures "system" in reports ==> reports["system"] == SystemReportPath(outputDir)
    ensures "eda" in reports ==> reports["eda"] == EdaReportPath(outputDir)
    ensures "decision" in reports ==> reports["decision"] == DecisionReportPath(outputDir)
  {
    assert "system" != "eda" && "system" != "decision" && "eda" != "decision" by {
      assert "system"[0] != "eda"[0] && "system"[0] != "decision"[0] && "eda"[0] != "decision"[0];
    }
    reports := map[];
    var systemReportPath := SystemReportPath(outputDir);
    if systemReportPath in existing {
      reports := reports["system" := systemReportPath];
    }
    var edaReportPath := EdaReportPath(outputDir);
    if edaReportPath in existing {
      reports := reports["eda" := edaReportPath];
    }
    var decisionReportPath := DecisionReportPath(outputDir);
    if decisionReportPath in existing {
      reports := reports["decision" := decisionReportPath];
    }
  }

  /** The three report paths differ (their base names do), so no report is listed under two keys. */
  lemma ReportPathsDistinct(outputDir: string)
    ensures SystemReportPath(outputDir) != EdaReportPath(outputDir)
    ensures SystemReportPath(outputDir) != DecisionReportPath(outputDir)
    ensures EdaReportPath(outputDir) != DecisionReportPath(outputDir)
  {
    var system, eda, decision := "system_summary_report.md", "eda_summary_report.md", "decision_optimization_report.md";
    assert |system| == 24 && |eda| == 21 && |decision| == 31;
    assert '/' !in system && '/' !in eda && '/' !in decision;
    PyPath.BasenameOfJoin(outputDir, system);
    PyPath.BasenameOfJoin(AnalysisResultsDir(outputDir), eda);
    PyPath.BasenameOfJoin(OptimizationResultsDir(outputDir), decision);
  }

  /** `f.endswith(('.png', '.jpg', '.jpeg'))` */
  predicate IsImageName(name: string) {
    PyText.EndsWith(name, ".png") || PyText.EndsWith(name, ".jpg") || PyText.EndsWith(name, ".jpeg")
  }

  /** `[os.path.join(d, f) for f in os.listdir(d) if f.endswith(...)]`, given the listing of `d`. */
  function ImagePaths(dir: string, names: seq<string>): (r: seq<string>)
    ensures |r| <= |names|
  {
    var images := Seqs.Filter(IsImageName, names);
    seq(|images|, i requires 0 <= i < |images| => PyPath.Join(dir, images[i]))
  }

  /**
   * The image paths are the directory joined with exactly the image names of
   * the listing: none dropped, none added, in listing order; the base names
   * read back the listed names.
   */
  lemma ImagePathsAreImageNames(dir: string, names: seq<string>)
    requires forall i :: 0 <= i < |names| ==> '/' !in names[i]
    ensures |ImagePaths(dir, names)| == |Seqs.Filter(IsImageName, names)|
    ensures forall i :: 0 <= i < |ImagePaths(dir, names)| ==>
              PyPath.Basename(ImagePaths(dir, names)[i]) == Seqs.Filter(IsImageName, names)[i]
    ensures forall i :: 0 <= i < |names| && IsImageName(names[i]) ==>
              PyPath.Join(dir, names[i]) in ImagePaths(dir, names)
  {
    var images := Seqs.Filter(IsImageName, names);
    forall i | 0 <= i < |images|
      ensures PyPath.Basename(ImagePaths(dir, names)[i]) == images[i]
    {
      assert images[i] in names;
      PyPath.BasenameOfJoin(dir, images[i]);
    }
    forall i | 0 <= i < |names| && IsImageName(names[i])
      ensures PyPath.Join(dir, names[i]) in ImagePaths(dir, names)
    {
      Seqs.FilterComplete(IsImageName, names);
      var k :| 0 <= k < |images| && images[k] == names[i];
      assert ImagePaths(dir, names)[k] == PyPath.Join(dir, names[i]);
    }
  }

  /** Listing order is kept: the image paths of two listings one after the other are those of each, in turn. */
  lemma ImagePathsAppend(dir: string, a: seq<string>, b: seq<string>)
    ensures ImagePaths(dir, a + b) == ImagePaths(dir, a) + ImagePaths(dir, b)
  {
    var fa, fb := Seqs.Filter(IsImageName, a), Seqs.Filter(IsImageName, b);
    Seqs.FilterAppend(IsImageName, a, b);
    var lhs, pa, pb := ImagePaths(dir, a + b), ImagePaths(dir, a), ImagePaths(dir, b);
    assert |lhs| == |fa| + |fb| == |pa| + |pb|;
    forall i | 0 <= i < |lhs| ensures lhs[i] == (pa + pb)[i] {
      if i < |fa| {
        assert lhs[i] == PyPath.Join(dir, fa[i]) == pa[i];
      } else {
        assert lhs[i] == PyPath.Join(dir, fb[i - |fa|]) == pb[i - |fa|];
      }
    }
  }

  /** `os.listdir` raises on a directory that exists but cannot be listed. */
  predicate ListingFails(dir: string, existing: set<string>, listings: map<string, seq<string>>) {
    dir in existing && dir !in listings
  }

  /**
   * `get_visualization_files()`: "eda" and "decision" are present exactly when
   * their directory exists, each mapped to the image paths of its listing;
   * a listing that raises makes the whole result `{}`, as the `except` does.
   */
  function VisualizationFiles(outputDir: string, existing: set<string>, listings: map<string, seq<string>>)
    : (r: map<string, seq<string>>)
    ensures r.Keys <= {"eda", "decision"}
    ensures (ListingFails(AnalysisResultsDir(outputDir), existing, listings)
             || ListingFails(OptimizationResultsDir(outputDir), existing, listings)) ==> r == map[]
    ensures !ListingFails(AnalysisResultsDir(outputDir), existing, listings)
            && !ListingFails(OptimizationResultsDir(outputDir), existing, listings) ==>
              && ("eda" in r <==> AnalysisResultsDir(outputDir) in existing)
              && ("decision" in r <==> OptimizationResultsDir(outputDir) in existing)
    ensures "eda" in r ==>
              r["eda"] == ImagePaths(AnalysisResultsDir(outputDir), listings[AnalysisResultsDir(outputDir)])
    ensures "decision" in r ==>
              r["decision"] == ImagePaths(OptimizationResultsDir(outputDir), listings[OptimizationResultsDir(outputDir)])
  {
    var edaDir := AnalysisResultsDir(outputDir);
    var decisionDir := OptimizationResultsDir(outputDir);
    if ListingFails(edaDir, existing, listings) || ListingFails(decisionDir, existing, listings) then
      map[]
    else
      var withEda: map<string, seq<string>> :=
        if edaDir in existing then map["eda" := ImagePaths(edaDir, listings[edaDir])] else map[];
      if decisionDir in existing then withEda["decision" := ImagePaths(decisionDir, listings[decisionDir])]
      else withEda
  }
}
