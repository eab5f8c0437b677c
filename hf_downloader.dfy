// hf_t2v_hunter/hf_t2v_hunter/downloader.py: download_models, which fetches
// the first top_n models that passed the filters while the running total of
// weight bytes stays within the disk budget. snapshot_download is the
// parameter `fetch`: what the hub gives for a repository id.
module HfDownloader {
  import opened Wrappers
  import opened Text
  import opened HfTypes
  import opened HfVram
  import opened HfScoring

  /** The outcome of snapshot_download: the local path, or str() of the exception it raised. */
  datatype Fetch = Fetched(localPath: string) | Raised(message: string)

  datatype DownloadedModel = DownloadedModel(repoId: string, localPath: string, sizeBytes: int, infoPath: string)

  /** One entry of the skipped list: {"repo_id": ..., "reason": ...}. */
  datatype Skipped = Skipped(repoId: string, reason: string)

  datatype DownloadReport = DownloadReport(downloaded: seq<DownloadedModel>, skipped: seq<Skipped>, totalBytes: int)

  const BudgetExceeded: string := "max_disk_gb_exceeded"

  /** [item for item in scored if not item.filtered_out][:top_n] */
  function Selected(scored: seq<ScoredModel>, topN: int): seq<ScoredModel>
  {
    TakePy(Unfiltered(scored), topN)
  }

  /** Path(local_path) / "model_info.json" */
  function InfoPath(localPath: string): string
  {
    localPath + "/model_info.json"
  }

  /** (total_bytes + size_bytes) / 1024**3 > max_disk_gb */
  predicate OverBudget(totalBytes: int, sizeBytes: int, maxDiskGb: real)
  {
    (totalBytes + sizeBytes) as real / GiB > maxDiskGb
  }

  /** One pass of the loop over the selected models. */
  function Step(report: DownloadReport, item: ScoredModel, config: Config, fetch: string -> Fetch): DownloadReport
  {
    var model := item.model;
    var size := TotalWeightBytes(model.siblings);
    if OverBudget(report.totalBytes, size, config.maxDiskGb) then
      report.(skipped := report.skipped + [Skipped(model.repoId, BudgetExceeded)])
    else
      match fetch(model.repoId)
      case Raised(message) => report.(skipped := report.skipped + [Skipped(model.repoId, message)])
      case Fetched(path) =>
        DownloadReport(report.downloaded + [DownloadedModel(model.repoId, path, size, InfoPath(path))],
          report.skipped, report.totalBytes + size)
  }

  /** The report after the loop has seen `items`, in order. */
  function Planned(items: seq<ScoredModel>, config: Config, fetch: string -> Fetch): DownloadReport
  {
    if items == [] then DownloadReport([], [], 0)
    else
      var n := |items| - 1;
      Step(Planned(items[..n], config, fetch), items[n], config, fetch)
  }

  /** download_models; creating the directories and writing model_info.json are left out. */
  method DownloadModels(scored: seq<ScoredModel>, config: Config, topN: int, fetch: string -> Fetch)
    returns (report: DownloadReport)
    ensures report == Planned(Selected(scored, topN), config, fetch)
  {
    var downloaded: seq<DownloadedModel> := [];
    var skipped: seq<Skipped> := [];
    var totalBytes := 0;
    var selected := TakePy(Unfiltered(scored), topN);
    for i := 0 to |selected|
      invariant DownloadReport(downloaded, skipped, totalBytes) == Planned(selected[..i], config, fetch)
    {
      assert selected[..i + 1][..i] == selected[..i];
      var model := selected[i].model;
      var sizeBytes := TotalWeightBytes(model.siblings);
      var projectedGb := (totalBytes + sizeBytes) as real / GiB;
      if projectedGb > config.maxDiskGb {
        skipped := skipped + [Skipped(model.repoId, BudgetExceeded)];
        continue;
      }
      var outcome := fetch(model.repoId);
      if outcome.Raised? {
        skipped := skipped + [Skipped(model.repoId, outcome.message)];
        continue;
      }
      var localPath := outcome.localPath;
      downloaded := downloaded + [DownloadedModel(model.repoId, localPath, sizeBytes, InfoPath(localPath))];
      totalBytes := totalBytes + sizeBytes;
    }
    assert selected[..|selected|] == selected;
    report := DownloadReport(downloaded, skipped, totalBytes);
  }

  /** Only the first top_n unfiltered models are considered, in their order. */
  lemma SelectedSpec(scored: seq<ScoredModel>, topN: int)
    ensures var s := Selected(scored, topN);
      && (0 <= topN ==> |s| == if topN <= |Unfiltered(scored)| then topN else |Unfiltered(scored)|)
      && (forall k :: 0 <= k < |s| ==> s[k] == Unfiltered(scored)[k] && !s[k].filteredOut && s[k] in scored)
  {
  }

  /** Appending one item to the loop's input is one more Step. */
  lemma PlannedSnoc(items: seq<ScoredModel>, item: ScoredModel, config: Config, fetch: string -> Fetch)
    ensures Planned(items + [item], config, fetch) == Step(Planned(items, config, fetch), item, config, fetch)
  {
    assert (items + [item])[..|items|] == items;
  }

  /** A model whose projected total exceeds max_disk_gb is skipped with "max_disk_gb_exceeded", and nothing else changes. */
  lemma OverBudgetSkipped(items: seq<ScoredModel>, item: ScoredModel, config: Config, fetch: string -> Fetch)
    requires OverBudget(Planned(items, config, fetch).totalBytes, TotalWeightBytes(item.model.siblings), config.maxDiskGb)
    ensures var before := Planned(items, config, fetch);
      Planned(items + [item], config, fetch)
        == before.(skipped := before.skipped + [Skipped(item.model.repoId, BudgetExceeded)])
  {
    PlannedSnoc(items, item, config, fetch);
  }

  /** A failed download is skipped with the exception's text; the downloads and total_bytes are unchanged. */
  lemma FailedDownloadSkipped(items: seq<ScoredModel>, item: ScoredModel, config: Config, fetch: string -> Fetch, message: string)
    requires !OverBudget(Planned(items, config, fetch).totalBytes, TotalWeightBytes(item.model.siblings), config.maxDiskGb)
    requires fetch(item.model.repoId) == Raised(message)
    ensures var before := Planned(items, config, fetch);
      var after := Planned(items + [item], config, fetch);
      && after.downloaded == before.downloaded
      && after.totalBytes == before.totalBytes
      && after.skipped == before.skipped + [Skipped(item.model.repoId, message)]
  {
    PlannedSnoc(items, item, config, fetch);
  }

  function SumSizes(ds: seq<DownloadedModel>): int
  {
    if ds == [] then 0 else SumSizes(ds[..|ds| - 1]) + ds[|ds| - 1].sizeBytes
  }

  /** total_bytes is the sum of the sizes of the downloaded models. */
  lemma {:induction false} TotalIsSumOfDownloads(items: seq<ScoredModel>, config: Config, fetch: string -> Fetch)
    ensures var r := Planned(items, config, fetch); r.totalBytes == SumSizes(r.downloaded)
  {
    if items != [] {
      var n := |items| - 1;
      var before := Planned(items[..n], config, fetch);
      TotalIsSumOfDownloads(items[..n], config, fetch);
      var after := Step(before, items[n], config, fetch);
      if after.downloaded != before.downloaded {
        assert after.downloaded[..|after.downloaded| - 1] == before.downloaded;
      }
    }
  }

  /** Every selected model ends up either downloaded or skipped, once. */
  lemma {:induction false} EveryItemAccounted(items: seq<ScoredModel>, config: Config, fetch: string -> Fetch)
    ensures var r := Planned(items, config, fetch); |r.downloaded| + |r.skipped| == |items|
  {
    if items != [] {
      EveryItemAccounted(items[..|items| - 1], config, fetch);
    }
  }

  /** Once anything is downloaded, the total stays within max_disk_gb. */
  lemma {:induction false} WithinBudget(items: seq<ScoredModel>, config: Config, fetch: string -> Fetch)
    ensures var r := Planned(items, config, fetch);
      r.downloaded != [] ==> r.totalBytes as real / GiB <= config.maxDiskGb
  {
    if items != [] {
      WithinBudget(items[..|items| - 1], config, fetch);
    }
  }

  /** The entry records `item`: its id and weight size, the path the hub gave and the info file beside it. */
  predicate Records(d: DownloadedModel, item: ScoredModel, fetch: string -> Fetch)
  {
    && d.repoId == item.model.repoId
    && d.sizeBytes == TotalWeightBytes(item.model.siblings)
    && fetch(d.repoId) == Fetched(d.localPath)
    && d.infoPath == InfoPath(d.localPath)
  }

  /** Every downloaded entry records a model of the input. */
  lemma {:induction false} DownloadedFromItems(items: seq<ScoredModel>, config: Config, fetch: string -> Fetch)
    ensures forall d :: d in Planned(items, config, fetch).downloaded ==>
      exists item :: item in items && Records(d, item, fetch)
  {
    if items != [] {
      var n := |items| - 1;
      DownloadedFromItems(items[..n], config, fetch);
      forall d | d in Planned(items, config, fetch).downloaded
        ensures exists item :: item in items && Records(d, item, fetch)
      {
        if d in Planned(items[..n], config, fetch).downloaded {
          var item :| item in items[..n] && Records(d, item, fetch);
          assert item in items;
        } else {
          assert items[n] in items && Records(d, items[n], fetch);
        }
      }
    }
  }
}
