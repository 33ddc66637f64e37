/**
 * The module-level state of server/util.py (`__data_columns`, `__locations`,
 * `__model`), `load_saved_artifacts`, its two getters and
 * `get_estimated_price` as a whole. The trained model is opaque: it is the
 * type parameter `M`, and its `predict` is a function passed in.
 */
module ArtifactStore {
  import opened Wrappers
  import opened Estimator

  /** Why reading an artifact failed (an unreadable file, malformed JSON, a missing key, a bad pickle). */
  datatype LoadError = ColumnsUnreadable | ModelUnreadable

  /** `columns[3:]`: Python's slice, empty when there are fewer than four columns. */
  function LocationsOf(columns: seq<string>): (r: seq<string>)
    ensures |r| == if |columns| >= 3 then |columns| - 3 else 0
    ensures forall i :: 0 <= i < |r| ==> r[i] == columns[i + 3]
  {
    if |columns| >= 3 then columns[3..] else []
  }

  class Store<M> {
    var dataColumns: Option<seq<string>>
    var locations: Option<seq<string>>
    var model: Option<M>

    /** `__locations` is always the view `__data_columns[3:]`, and both are unset together. */
    ghost predicate Valid()
      reads this
    {
      match dataColumns
      case None => locations == None
      case Some(columns) => locations == Some(LocationsOf(columns))
    }

    /** The state right after import: all three globals are `None`. */
    constructor ()
      ensures Valid()
      ensures dataColumns == None && locations == None && model == None
    {
      dataColumns, locations, model := None, None, None;
    }

    /**
     * `load_saved_artifacts`, given what reading the columns file yields and
     * what loading the model file would yield. The columns are re-read on
     * every call and replace the old ones; the model is loaded only while it
     * is still unset. A model that fails to load leaves the new columns in
     * place.
     */
    method Load(columnsRead: Result<seq<string>, LoadError>, modelRead: Result<M, LoadError>)
      returns (r: Result<(), LoadError>)
      requires Valid()
      modifies this
      ensures Valid()
      ensures columnsRead.Failure? ==>
        r == Failure(columnsRead.error) && dataColumns == old(dataColumns) && model == old(model)
      ensures columnsRead.Success? ==> dataColumns == Some(columnsRead.value)
      ensures columnsRead.Success? && old(model).Some? ==> model == old(model) && r == Success(())
      ensures columnsRead.Success? && old(model).None? && modelRead.Success? ==>
        model == Some(modelRead.value) && r == Success(())
      ensures columnsRead.Success? && old(model).None? && modelRead.Failure? ==>
        model == None && r == Failure(modelRead.error)
    {
      if columnsRead.Failure? {
        return Failure(columnsRead.error);
      }
      var columns := columnsRead.value;
      dataColumns := Some(columns);
      locations := Some(LocationsOf(columns));
      if model.None? {
        if modelRead.Failure? {
          return Failure(modelRead.error);
        }
        model := Some(modelRead.value);
      }
      return Success(());
    }

    /** `get_location_names`: after a load, exactly the columns from index 3 on, in order. */
    function LocationNames(): (r: Option<seq<string>>)
      reads this
      requires Valid()
      ensures r.Some? <==> dataColumns.Some?
      ensures dataColumns.Some? ==>
        |r.value| == (if |dataColumns.value| >= 3 then |dataColumns.value| - 3 else 0) &&
        forall i :: 0 <= i < |r.value| ==> r.value[i] == dataColumns.value[i + 3]
    {
      locations
    }

    /** `get_data_columns`: the stored column list itself, of which the location names are the tail. */
    function DataColumns(): (r: Option<seq<string>>)
      reads this
      requires Valid()
      ensures r == dataColumns
      ensures r.Some? <==> locations.Some?
      ensures r.Some? ==> locations == Some(LocationsOf(r.value))
    {
      dataColumns
    }

    /**
     * `get_estimated_price` up to rounding: the encoded vector goes to the
     * model's `predict`. Before a load it raises, as it does with fewer than
     * three columns or with no model.
     */
    method EstimatedPrice(location: string, sqft: real, bhk: real, bath: real, predict: (M, seq<real>) -> real)
      returns (r: Result<real, EstimateError>)
      ensures dataColumns.None? ==> r == Failure(NotLoaded)
      ensures dataColumns.Some? && |dataColumns.value| < 3 ==> r == Failure(TooFewColumns)
      ensures dataColumns.Some? && |dataColumns.value| >= 3 && model.None? ==> r == Failure(NoModel)
      ensures dataColumns.Some? && |dataColumns.value| >= 3 && model.Some? ==>
        r == Success(predict(model.value, Encoding(dataColumns.value, location, sqft, bhk, bath)))
    {
      if dataColumns.None? {
        return Failure(NotLoaded);
      }
      var encoded := EncodeFeatures(dataColumns.value, location, sqft, bhk, bath);
      if encoded.Failure? {
        return Failure(encoded.error);
      }
      if model.None? {
        return Failure(NoModel);
      }
      return Success(predict(model.value, encoded.value[..]));
    }
  }

  /**
   * Loading twice with the same columns file: the column list and the
   * location names are the same after each load, and the model from the
   * first successful load is kept whatever the second model read would have
   * produced.
   */
  method ReloadKeepsState<M>(columns: seq<string>, first: Result<M, LoadError>, second: Result<M, LoadError>)
    returns (columnsAfterFirst: Option<seq<string>>, columnsAfterSecond: Option<seq<string>>,
             namesAfterFirst: Option<seq<string>>, namesAfterSecond: Option<seq<string>>,
             modelAfterFirst: Option<M>, modelAfterSecond: Option<M>)
    ensures columnsAfterFirst == columnsAfterSecond == Some(columns)
    ensures namesAfterFirst == namesAfterSecond == Some(LocationsOf(columns))
    ensures first.Success? ==> modelAfterFirst == modelAfterSecond == Some(first.value)
    ensures first.Failure? ==> modelAfterFirst == None && modelAfterSecond == second.ToOption()
  {
    var store := new Store<M>();
    var _ := store.Load(Success(columns), first);
    columnsAfterFirst, namesAfterFirst, modelAfterFirst := store.DataColumns(), store.LocationNames(), store.model;
    var _ := store.Load(Success(columns), second);
    columnsAfterSecond, namesAfterSecond, modelAfterSecond := store.DataColumns(), store.LocationNames(), store.model;
  }
}
