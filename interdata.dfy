/**
 * InterData registration (src/InterData.cpp, include/InterData.h): handlers register the
 * data sets they export, with a synchronization mode, and the data sets they import by
 * name. Consecutive exports under one name, one per thread, are told apart by a thread
 * index. The synchronization itself (`finalizeInit`, `synchronizeAll`) has empty bodies.
 */
module InterDatas {
  import opened Wrappers
  import Exceptions
  import Handlers
  import DataSets
  import Synchronizers

  /** `InterData::ExportDescription`; `destination` is the buffer to synchronize into, null here. */
  datatype ExportDescription = ExportDescription(
    dataSet: DataSets.DataSet,
    name: string,
    threadIdx: int,
    isGlobal: bool,
    synchronizer: Synchronizers.Synchronizer,
    finalizer: Synchronizers.Finalizer,
    destination: Option<array<int>>)

  datatype ImportDescription = ImportDescription(dataSet: DataSets.DataSet, name: string)

  /** The thread index of a new export: one past the last export's when that has the same name, else 0. */
  function NextThreadIdx(exports: seq<ExportDescription>, name: string): int {
    if exports != [] && exports[|exports| - 1].name == name then exports[|exports| - 1].threadIdx + 1 else 0
  }

  /** Every export carries the thread index its registration computed. */
  predicate WellIndexed(exports: seq<ExportDescription>) {
    forall i :: 0 <= i < |exports| ==> exports[i].threadIdx == NextThreadIdx(exports[..i], exports[i].name)
  }

  /** The number of exports named `name` that end `exports`, without interruption. */
  function RunLength(exports: seq<ExportDescription>, name: string): nat
    decreases |exports|
  {
    if exports != [] && exports[|exports| - 1].name == name then RunLength(exports[..|exports| - 1], name) + 1 else 0
  }

  /**
   * In a well-indexed export list, each export's thread index counts the exports of the same
   * name right before it: a run of k same-name exports is numbered 0 .. k - 1, and a change
   * of name starts again at 0.
   */
  lemma {:induction false} ThreadIdxCountsRun(exports: seq<ExportDescription>, i: nat)
    requires WellIndexed(exports) && i < |exports|
    ensures exports[i].threadIdx == RunLength(exports[..i], exports[i].name)
    decreases i
  {
    var name := exports[i].name;
    if i > 0 && exports[i - 1].name == name {
      ThreadIdxCountsRun(exports, i - 1);
      assert exports[..i][..i - 1] == exports[..i - 1];
    }
  }

  /** Within a run of exports of one name, the thread indices are consecutive, so distinct. */
  lemma ThreadIdxConsecutiveInRun(exports: seq<ExportDescription>, i: nat, j: nat)
    requires WellIndexed(exports) && i < j < |exports|
    requires forall k :: i <= k <= j ==> exports[k].name == exports[i].name
    ensures exports[j].threadIdx == exports[i].threadIdx + (j - i)
    decreases j - i
  {
    if j > i + 1 {
      ThreadIdxConsecutiveInRun(exports, i, j - 1);
    }
    assert exports[..j][|exports[..j]| - 1] == exports[j - 1];
  }

  class InterData {
    var exportData: seq<ExportDescription>
    var importData: seq<ImportDescription>
    /** `currentHandler`, null until `setCurrentHandler` is called. */
    var currentHandler: Option<Handlers.Handler>

    constructor()
      ensures exportData == [] && importData == [] && currentHandler == None
    {
      exportData := [];
      importData := [];
      currentHandler := None;
    }

    predicate Valid()
      reads this
    {
      WellIndexed(exportData)
    }

    /**
     * `registerExport(dataSet, name, mode, synchronizer, finalizer)` as written: it fills a
     * description and computes its thread index from the last export, but never appends it.
     * It reads the current handler's type, so the handler must be set.
     */
    method RegisterExport(dataSet: DataSets.DataSet, name: string, mode: Synchronizers.SynchronizationMode,
                          synchronizer: Synchronizers.Synchronizer, finalizer: Synchronizers.Finalizer)
      returns (d: ExportDescription)
      requires currentHandler.Some?
      ensures d.dataSet == dataSet && d.name == name
      ensures d.isGlobal <==> mode.locality == Synchronizers.Global
      ensures d.synchronizer == synchronizer && d.finalizer == finalizer && d.destination == None
      ensures d.threadIdx == NextThreadIdx(exportData, name)
    {
      d := ExportDescription(dataSet, name, 0, mode.locality == Synchronizers.Global, synchronizer, finalizer, None);
      var handlerType := currentHandler.value.GetType();
      var isMultithreaded := handlerType == Handlers.Particle || handlerType == Handlers.Cell;
      if exportData != [] && exportData[|exportData| - 1].name == d.name {
        d := d.(threadIdx := exportData[|exportData| - 1].threadIdx + 1);
      }
    }

    /** `registerExport` as intended: the description is appended, which keeps the thread indices consistent. */
    method RegisterExportIntended(dataSet: DataSets.DataSet, name: string, mode: Synchronizers.SynchronizationMode,
                                  synchronizer: Synchronizers.Synchronizer, finalizer: Synchronizers.Finalizer)
      returns (d: ExportDescription)
      requires currentHandler.Some?
      requires Valid()
      modifies this
      ensures d.dataSet == dataSet && d.name == name
      ensures d.isGlobal <==> mode.locality == Synchronizers.Global
      ensures d.synchronizer == synchronizer && d.finalizer == finalizer && d.destination == None
      ensures d.threadIdx == NextThreadIdx(old(exportData), name)
      ensures exportData == old(exportData) + [d]
      ensures importData == old(importData) && currentHandler == old(currentHandler)
      ensures Valid()
    {
      d := RegisterExport(dataSet, name, mode, synchronizer, finalizer);
      exportData := exportData + [d];
      assert exportData[..|exportData| - 1] == old(exportData);
      assert forall i :: 0 <= i < |old(exportData)| ==> exportData[..i] == old(exportData)[..i];
    }

    /**
     * The template `registerExport(dataSet, name, mode)` as written: create the synchronizer
     * and the finalizer for the data set, then call the five-argument `registerExport`, which
     * records nothing. An unimplemented operation throws before that call.
     */
    method RegisterExportDataSetAsWritten(dataSet: DataSets.DataSet, name: string, mode: Synchronizers.SynchronizationMode)
      returns (r: Result<ExportDescription, Exceptions.Failure>)
      requires currentHandler.Some?
      ensures r.Failure? <==> Synchronizers.CreateSynchronizer(dataSet.rawSize, mode).Failure?
      ensures r.Failure? ==> r.error == Synchronizers.CreateSynchronizer(dataSet.rawSize, mode).error
      ensures r.Success? ==> r.value.synchronizer == Synchronizers.CreateSynchronizer(dataSet.rawSize, mode).value
      ensures r.Success? ==> r.value.finalizer == Synchronizers.CreateFinalizer(dataSet.rawSize, mode)
      ensures r.Success? ==> r.value.threadIdx == NextThreadIdx(exportData, name) && r.value.name == name
    {
      var sync := Synchronizers.CreateSynchronizer(dataSet.rawSize, mode);
      if sync.Failure? {
        return Failure(sync.error);
      }
      var fin := Synchronizers.CreateFinalizer(dataSet.rawSize, mode);
      var d := RegisterExport(dataSet, name, mode, sync.value, fin);
      r := Success(d);
    }

    /**
     * The template `registerExport(dataSet, name, mode)` as intended: the same, but through
     * the appending `registerExport`, so a successful call records the description.
     */
    method RegisterExportDataSet(dataSet: DataSets.DataSet, name: string, mode: Synchronizers.SynchronizationMode)
      returns (r: Result<ExportDescription, Exceptions.Failure>)
      requires currentHandler.Some?
      requires Valid()
      modifies this
      ensures r.Failure? <==> Synchronizers.CreateSynchronizer(old(dataSet.rawSize), mode).Failure?
      ensures r.Failure? ==> exportData == old(exportData) && r.error == Synchronizers.CreateSynchronizer(old(dataSet.rawSize), mode).error
      ensures r.Success? ==> exportData == old(exportData) + [r.value]
      ensures r.Success? ==> r.value.synchronizer == Synchronizers.CreateSynchronizer(old(dataSet.rawSize), mode).value
      ensures r.Success? ==> r.value.finalizer == Synchronizers.CreateFinalizer(old(dataSet.rawSize), mode)
      ensures importData == old(importData) && currentHandler == old(currentHandler)
      ensures Valid()
    {
      var sync := Synchronizers.CreateSynchronizer(dataSet.rawSize, mode);
      if sync.Failure? {
        return Failure(sync.error);
      }
      var fin := Synchronizers.CreateFinalizer(dataSet.rawSize, mode);
      var d := RegisterExportIntended(dataSet, name, mode, sync.value, fin);
      r := Success(d);
    }

    /** `registerImport(dataSet, name)`: append one description; nothing else changes. */
    method RegisterImport(dataSet: DataSets.DataSet, name: string)
      modifies this
      ensures importData == old(importData) + [ImportDescription(dataSet, name)]
      ensures exportData == old(exportData) && currentHandler == old(currentHandler)
    {
      importData := importData + [ImportDescription(dataSet, name)];
    }

    /** `setCurrentHandler(handler)`. */
    method SetCurrentHandler(handler: Handlers.Handler)
      modifies this
      ensures currentHandler == Some(handler)
      ensures exportData == old(exportData) && importData == old(importData)
    {
      currentHandler := Some(handler);
    }

    /** `finalizeInit()`: an empty body. */
    method FinalizeInit()
      ensures unchanged(this)
    {
    }

    /** `synchronizeAll()`: an empty body. */
    method SynchronizeAll()
      ensures unchanged(this)
    {
    }
  }

  /**
   * Registering two exports under one name from an empty InterData: as written both get
   * thread index 0 and nothing is recorded; as intended they get 0 and 1.
   */
  method RegisterTwiceAsWritten(ds: DataSets.DataSet, h: Handlers.Handler, mode: Synchronizers.SynchronizationMode)
    returns (first: ExportDescription, second: ExportDescription, recorded: seq<ExportDescription>)
    ensures first.threadIdx == 0 && second.threadIdx == 0 && recorded == []
  {
    var data := new InterData();
    data.SetCurrentHandler(h);
    first := data.RegisterExport(ds, "E", mode, Synchronizers.NoneSynchronizer, Synchronizers.KeepFinalizer);
    second := data.RegisterExport(ds, "E", mode, Synchronizers.NoneSynchronizer, Synchronizers.KeepFinalizer);
    recorded := data.exportData;
  }

  method RegisterTwiceIntended(ds: DataSets.DataSet, h: Handlers.Handler, mode: Synchronizers.SynchronizationMode)
    returns (first: ExportDescription, second: ExportDescription, recorded: seq<ExportDescription>)
    ensures first.threadIdx == 0 && second.threadIdx == 1 && recorded == [first, second]
  {
    var data := new InterData();
    data.SetCurrentHandler(h);
    first := data.RegisterExportIntended(ds, "E", mode, Synchronizers.NoneSynchronizer, Synchronizers.KeepFinalizer);
    second := data.RegisterExportIntended(ds, "E", mode, Synchronizers.NoneSynchronizer, Synchronizers.KeepFinalizer);
    recorded := data.exportData;
  }
}
