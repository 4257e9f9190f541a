/**
 * The collection edit page: it fetches the collection named by the route unless the store
 * already holds it, refetches when the route switches to another collection, and otherwise
 * fills its text area with the serialised record when the text is still empty or holds a
 * different collection. Serialisation is a function supplied by the caller.
 */
module CollectionEdit {
  import opened Js

  /** The fetched collection document; `collectionName` is None when the field is missing. */
  datatype CollectionData = CollectionData(collectionName: Option<string>, fields: map<string, string>)

  /** A store entry under `collectionDetail`; `data` is None until the fetch has delivered it. */
  datatype CollectionRecord = CollectionRecord(data: Option<CollectionData>)

  /**
   * `api.collectionDetail`: a name that is missing and a name stored as `null` both read as no
   * record (a None value is a `null` entry).
   */
  type CollectionDetail = map<string, Option<CollectionRecord>>

  /** `get(api, ['collectionDetail', name])` */
  function Lookup(cache: CollectionDetail, name: string): (r: Option<CollectionRecord>)
    ensures r.Some? <==> name in cache && cache[name].Some?
    ensures r.Some? ==> r == cache[name]
  {
    if name in cache then cache[name] else None
  }

  /**
   * What the serialiser gives for `record.data`: a text, `undefined` (what it gives for a
   * missing value), or an exception, carried as its own serialisation.
   */
  datatype Serialised = Text(text: string) | Undefined | Threw(serialisedException: string)

  /** How a lifecycle call ended: normally, or with a TypeError thrown out of it. */
  datatype Outcome = Completed | ThrewTypeError

  /** The component state: the editor text (None is `undefined`) and the error shown under it. */
  datatype EditState = EditState(collection: Option<string>, error: Option<string>)

  const InitialState := EditState(Some(""), None)

  /** The serialisation of a TypeError object, which has no own enumerable properties. */
  const TypeErrorSerialised := "{}"

  /**
   * The condition of the refresh under an unchanged route name. The outer None is a
   * TypeError: `record.data` is read while the record is missing, which happens only when
   * the text is truthy (the `||` short-circuits otherwise).
   */
  function RefreshWanted(s: EditState, name: string, record: Option<CollectionRecord>): (r: Option<bool>)
    ensures r.None? <==> Truthy(s.collection) && record.None?
    ensures r == Some(true) <==>
      !Truthy(s.collection)
      || (record.Some? && record.value.data.Some? && record.value.data.value.collectionName != Some(name))
  {
    if !Truthy(s.collection) then Some(true)
    else if record.None? then None
    else match record.value.data
      case None => Some(false)
      case Some(data) => Some(data.collectionName.None? || name != data.collectionName.value)
  }

  /**
   * The value `collection` has after the `try`: the serialiser's text, or `undefined` when
   * it gave `undefined`, threw, or was never reached because `record.data` threw first.
   */
  function RefreshedText(record: Option<CollectionRecord>, serialise: Option<CollectionData> -> Serialised): (t: Option<string>)
    ensures t.Some? <==> record.Some? && serialise(record.value.data).Text?
    ensures t.Some? ==> t.value == serialise(record.value.data).text
  {
    if record.None? then None
    else match serialise(record.value.data)
      case Text(text) => Some(text)
      case _ => None
  }

  /**
   * `componentWillReceiveProps` when the route name has not changed: the next state and how
   * the call ended.
   */
  function Refresh(s: EditState, name: string, record: Option<CollectionRecord>,
                   serialise: Option<CollectionData> -> Serialised): (r: (EditState, Outcome))
    ensures r.1 == ThrewTypeError <==> Truthy(s.collection) && record.None?
    ensures r.1 == ThrewTypeError ==> r.0 == s
    ensures RefreshWanted(s, name, record) == Some(true) ==>
      r.1 == Completed && r.0 == EditState(RefreshedText(record, serialise), None)
    ensures RefreshWanted(s, name, record) == Some(false) ==> r == (s, Completed)
  {
    match RefreshWanted(s, name, record)
    case None => (s, ThrewTypeError)
    case Some(false) => (s, Completed)
    case Some(true) =>
      // inside the `try`: a missing record throws before the serialiser runs
      var caught :=
        if record.None? then Some(TypeErrorSerialised)
        else match serialise(record.value.data)
          case Threw(e) => Some(e)
          case _ => None;
      // the `catch` records the error ...
      var afterCatch := if caught.Some? then s.(error := caught) else s;
      // ... and the next `setState` overwrites it with `null`
      (afterCatch.(collection := RefreshedText(record, serialise), error := None), Completed)
  }

  /** Whatever the serialiser does, a refresh leaves no error behind: the one recorded in `catch` is overwritten. */
  lemma {:induction false} RefreshClearsError(s: EditState, name: string, record: Option<CollectionRecord>,
                                             serialise: Option<CollectionData> -> Serialised)
    requires RefreshWanted(s, name, record) == Some(true)
    ensures Refresh(s, name, record, serialise).0.error.None?
    ensures record.Some? && serialise(record.value.data).Threw? ==>
      Refresh(s, name, record, serialise).0.collection.None?
  {
  }

  /** An empty text is always refreshed; a truthy text only when the cached record names another collection. */
  lemma RefreshConditions(s: EditState, name: string, data: CollectionData)
    ensures !Truthy(s.collection) ==> RefreshWanted(s, name, None) == Some(true)
    ensures Truthy(s.collection) ==>
      (RefreshWanted(s, name, Some(CollectionRecord(Some(data)))) == Some(true) <==> data.collectionName != Some(name))
    ensures Truthy(s.collection) ==> RefreshWanted(s, name, Some(CollectionRecord(None))) == Some(false)
  {
  }

  /** Once a record naming this collection has been delivered, delivering it again changes nothing, whatever the serialiser does. */
  lemma RefreshSettles(s: EditState, name: string, data: CollectionData, serialise: Option<CollectionData> -> Serialised)
    requires data.collectionName == Some(name)
    ensures var s1 := Refresh(s, name, Some(CollectionRecord(Some(data))), serialise).0;
      Refresh(s1, name, Some(CollectionRecord(Some(data))), serialise) == (s1, Completed)
  {
  }

  /** What the page renders: an empty element until the record is cached, then the editor. */
  datatype View = EmptyElement | EditForm(caption: string, value: Option<string>, error: Option<string>)

  class EditCollection {
    /** `props.params.collectionName` */
    var routeName: string
    /** `props.api.collectionDetail` */
    var cache: CollectionDetail
    /** `state.collection` */
    var collection: Option<string>
    /** `state.error` */
    var error: Option<string>
    /** The names of the `getCollection` actions dispatched so far, oldest first. */
    var fetched: seq<string>

    function State(): EditState
      reads this
    {
      EditState(collection, error)
    }

    /** `getInitialState`: an empty text and no error. */
    constructor (routeName: string, cache: CollectionDetail)
      ensures State() == InitialState && this.routeName == routeName && this.cache == cache && fetched == []
    {
      this.routeName := routeName;
      this.cache := cache;
      collection, error := Some(""), None;
      fetched := [];
    }

    /** The `collection` accessor: the record cached under `name`, if any. */
    function CachedRecord(name: string): (r: Option<CollectionRecord>)
      reads this
      ensures r.Some? <==> name in cache && cache[name].Some?
      ensures r.Some? ==> r == cache[name]
    {
      Lookup(cache, name)
    }

    /** `get`: dispatches a fetch exactly when nothing is cached under `name`. */
    method Get(name: string)
      modifies this`fetched
      ensures fetched == old(fetched) + (if CachedRecord(name).None? then [name] else [])
    {
      if CachedRecord(name).None? {
        fetched := fetched + [name];
      }
    }

    method ComponentWillMount()
      modifies this`fetched
      ensures fetched == old(fetched) + (if CachedRecord(routeName).None? then [routeName] else [])
    {
      Get(routeName);
    }

    /**
     * A new route name only triggers `get`, which still reads the old props; the same name
     * refreshes the text from the new props. After the call the new props are installed,
     * unless it threw.
     */
    method ComponentWillReceiveProps(newRouteName: string, newCache: CollectionDetail,
                                     serialise: Option<CollectionData> -> Serialised)
      returns (outcome: Outcome)
      modifies this
      ensures old(routeName) != newRouteName ==>
        && outcome == Completed
        && State() == old(State())
        && fetched == old(fetched) + (if Lookup(old(cache), newRouteName).None? then [newRouteName] else [])
      ensures old(routeName) == newRouteName ==>
        && fetched == old(fetched)
        && (State(), outcome) == Refresh(old(State()), newRouteName, Lookup(newCache, newRouteName), serialise)
      ensures outcome == Completed ==> routeName == newRouteName && cache == newCache
      ensures outcome == ThrewTypeError ==> routeName == old(routeName) && cache == old(cache)
    {
      var name := routeName;
      if name != newRouteName {
        Get(newRouteName);
        routeName, cache := newRouteName, newCache;
        return Completed;
      }
      var record := Lookup(newCache, name);
      var wanted := RefreshWanted(State(), name, record);
      if wanted.None? {
        return ThrewTypeError;
      }
      if wanted.value {
        var text: Option<string> := None;
        if record.None? {
          error := Some(TypeErrorSerialised);
        } else {
          match serialise(record.value.data)
          case Text(t) => text := Some(t);
          case Undefined =>
          case Threw(e) => error := Some(e);
        }
        collection, error := text, None;
      }
      routeName, cache := newRouteName, newCache;
      outcome := Completed;
    }

    /** The editor's change handler does nothing. */
    method OnChange(id: string, value: string)
      ensures unchanged(this)
    {
    }

    /** The submit handler does nothing. */
    method OnSubmit()
      ensures unchanged(this)
    {
    }

    function Render(): (v: View)
      reads this
      ensures v.EmptyElement? <==> CachedRecord(routeName).None?
      ensures v.EditForm? ==> v.caption == "Edit " + routeName && v.value == collection && v.error == error
    {
      if CachedRecord(routeName).None? then EmptyElement
      else EditForm("Edit " + routeName, collection, error)
    }
  }

  /** Mounting on an uncached collection fetches it once, and the page stays empty until the record arrives. */
  method MountUncached(name: string) returns (page: EditCollection)
    ensures fresh(page) && page.fetched == [name] && page.Render() == EmptyElement && page.State() == InitialState
  {
    page := new EditCollection(name, map[]);
    page.ComponentWillMount();
  }
}
