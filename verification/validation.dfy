/**
 `PluginInstanceSerializer.validate_previous` and the creation path that
 follows it: validate the `previous` id a client sent, build the new instance,
 save it.
 */
module Validation {
  import opened Results
  import opened Instances
  import Decimal
  import Tree
  import Saving

  /** The two `ValidationError`s `validate_previous` raises. */
  datatype ValidationError = PreviousRequired | PreviousNotFound(given: string)

  /** The `detail` text each error carries. */
  function Detail(e: ValidationError): string {
    match e
    case PreviousRequired => "A 'previous' plugin instance id is required"
    case PreviousNotFound(given) => "Couldn't find any 'previous' plugin instance with id " + given
  }

  /** Python truthiness of the received id: `None` and the empty string are falsy. */
  predicate Given(previousId: Option<string>) {
    previousId.Some? && previousId.value != ""
  }

  /** `int(previous_id)` followed by the primary-key lookup; both failures report the same error. */
  function LookupPrevious(db: Store, text: string): (r: Result<Id, ValidationError>)
    ensures r.Ok? <==> Decimal.ParseInt(text).Some? && Decimal.ParseInt(text).value >= 0
                       && Decimal.ParseInt(text).value as nat in db
    ensures r.Ok? ==> r.value in db && Decimal.ParseInt(text) == Some(r.value as int)
    ensures r.Err? ==> r.error == PreviousNotFound(text)
  {
    match Decimal.ParseInt(text)
    case None => Err(PreviousNotFound(text))
    case Some(pk) =>
      if pk >= 0 && pk as nat in db then Ok(pk as nat) else Err(PreviousNotFound(text))
  }

  /** The check itself, for a plugin that does or does not require a parent. */
  function CheckPrevious(db: Store, previousId: Option<string>, required: bool)
    : (r: Result<Option<Id>, ValidationError>)
    ensures !required ==> r == Ok(None)
    ensures required && !Given(previousId) ==> r == Err(PreviousRequired)
    ensures required && Given(previousId) ==>
      match LookupPrevious(db, previousId.value)
      case Ok(p) => r == Ok(Some(p))
      case Err(e) => r == Err(e)
    ensures r.Ok? && r.value.Some? ==> r.value.value in db
  {
    if !required then Ok(None)
    else if !Given(previousId) then Err(PreviousRequired)
    else
      match LookupPrevious(db, previousId.value)
      case Ok(p) => Ok(Some(p))
      case Err(e) => Err(e)
  }

  /**
   `validate_previous` as written: a parent is required, and looked up, only
   for a `'ds'` plugin; for every other type the id is ignored and the result
   is `None`.
   */
  function ValidatePrevious(db: Store, previousId: Option<string>, plugin: Plugin)
    : (r: Result<Option<Id>, ValidationError>)
    ensures plugin.ptype != Ds ==> r == Ok(None)
    ensures plugin.ptype == Ds && !Given(previousId) ==> r == Err(PreviousRequired)
    ensures plugin.ptype == Ds && Given(previousId) ==>
      var parsed := Decimal.ParseInt(previousId.value);
      && (r.Ok? <==> parsed.Some? && parsed.value >= 0 && parsed.value as nat in db)
      && (r.Ok? ==> r.value.Some? && parsed == Some(r.value.value as int))
      && (r.Err? ==> r.error == PreviousNotFound(previousId.value))
  {
    CheckPrevious(db, previousId, plugin.ptype == Ds)
  }

  /** Sending the decimal id of any stored instance as `previous` of a `'ds'` plugin finds that instance. */
  lemma ValidatePreviousFindsRenderedId(db: Store, p: Id, plugin: Plugin)
    requires p in db && plugin.ptype == Ds
    ensures ValidatePrevious(db, Some(Decimal.NatToString(p)), plugin) == Ok(Some(p))
  {
    Decimal.ParseIntOfNatToString(p);
  }

  /**
   The discrepancy: a `'ts'` plugin with no previous id passes validation, and
   the save that follows then reads `previous.feed` with no parent.
   */
  lemma TsWithoutPreviousPassesValidation(db: Store, feeds: FeedStore, plugin: Plugin,
                                          owner: Username, title: string, limits: Limits)
    requires plugin.ptype == Ts
    ensures ValidatePrevious(db, None, plugin) == Ok(None)
    ensures Saving.Save(db, feeds, NewInstance(plugin, owner, title, None, limits))
      == Err(Saving.PreviousMissing)
  {
  }

  /** The check as evidently intended: every data step and topology step needs a parent. */
  function ValidatePreviousForSteps(db: Store, previousId: Option<string>, plugin: Plugin)
    : (r: Result<Option<Id>, ValidationError>)
    ensures plugin.ptype == Fs || plugin.ptype == OtherType ==> r == Ok(None)
    ensures (plugin.ptype == Ds || plugin.ptype == Ts) ==>
      (r.Ok? <==> Given(previousId) && LookupPrevious(db, previousId.value).Ok?)
    ensures (plugin.ptype == Ds || plugin.ptype == Ts) && r.Ok? ==>
      r.value == Some(LookupPrevious(db, previousId.value).value)
    ensures (plugin.ptype == Ds || plugin.ptype == Ts) && !Given(previousId) ==> r == Err(PreviousRequired)
  {
    CheckPrevious(db, previousId, plugin.ptype == Ds || plugin.ptype == Ts)
  }

  /** How creating an instance fails: refused by validation, or failed while saving. */
  datatype CreateError = Invalid(reason: ValidationError) | SaveFailed(cause: Saving.SaveError)

  ghost predicate AllHaveFeeds(db: Store) {
    forall i :: i in db ==> db[i].feed.Some?
  }

  /**
   Creating an instance: validate `previous`, build the record with its default
   status, save it. With the corrected check and a store whose instances all
   have feeds, a save of a known plugin type never fails.
   */
  function CreateInstance(db: Store, feeds: FeedStore, plugin: Plugin, owner: Username,
                          title: string, previousId: Option<string>, limits: Limits)
    : (r: Result<Saving.Saved, CreateError>)
    ensures plugin.ptype != OtherType && AllHaveFeeds(db) && r.Err? ==> r.error.Invalid?
    ensures (plugin.ptype == Ds || plugin.ptype == Ts) && !Given(previousId) ==>
      r == Err(Invalid(PreviousRequired))
    ensures r.Ok? ==>
      && r.value.inst.status == Created
      && r.value.inst.owner == owner
      && r.value.inst.plugin == plugin
      && r.value.inst.feed.Some?
      && (plugin.ptype == Fs ==> r.value.inst.previous.None?)
      && (plugin.ptype != Fs ==>
            && r.value.inst.previous.Some?
            && r.value.inst.previous.value in db
            && r.value.inst.feed == db[r.value.inst.previous.value].feed)
  {
    match ValidatePreviousForSteps(db, previousId, plugin)
    case Err(e) => Err(Invalid(e))
    case Ok(previous) =>
      match Saving.Save(db, feeds, NewInstance(plugin, owner, title, previous, limits))
      case Err(e) => Err(SaveFailed(e))
      case Ok(s) => Ok(s)
  }

  /**
   Writing a created instance under an unused key keeps the forest well formed and
   every instance in its parent's feed; the returned rank witnesses acyclicity.
   */
  lemma CreateKeepsForestWellFormed(db: Store, rank: Id -> nat, feeds: FeedStore, plugin: Plugin,
                                    owner: Username, title: string, previousId: Option<string>,
                                    limits: Limits, id: Id)
    returns (rank': Id -> nat)
    requires Tree.WellFormed(db, rank) && Saving.FeedsFollowParents(db)
    requires id !in db
    requires CreateInstance(db, feeds, plugin, owner, title, previousId, limits).Ok?
    ensures var db' := db[id := CreateInstance(db, feeds, plugin, owner, title, previousId, limits).value.inst];
      Tree.WellFormed(db', rank') && Saving.FeedsFollowParents(db')
  {
    var inst := CreateInstance(db, feeds, plugin, owner, title, previousId, limits).value.inst;
    var previous := ValidatePreviousForSteps(db, previousId, plugin).value;
    var built := NewInstance(plugin, owner, title, previous, limits);
    assert Saving.Save(db, feeds, built).Ok? && Saving.Save(db, feeds, built).value.inst == inst;
    var db' := db[id := inst];
    var top := if inst.previous.Some? then rank(inst.previous.value) + 1 else 0;
    rank' := x => if x == id then top else rank(x);
    forall i | i in db' && db'[i].previous.Some?
      ensures db'[i].previous.value in db' && rank'(db'[i].previous.value) < rank'(i)
    {
      if i != id {
        assert db[i].previous.value in db;
      }
    }
    Saving.SaveKeepsFeedsWithParents(db, rank, feeds, built, id);
  }
}
