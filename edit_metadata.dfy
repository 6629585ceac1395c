/**
 * The metadata editor of the configure stage. Every keystroke in the name, description or
 * count field builds one new metadata record from the editor's local fields and writes it to
 * three places: the session, the store's `metadata` key, and the edited local field.
 */
module EditMetadata {
  import opened JsNumber
  import opened Session
  import opened Registry

  /** One change event of one input field; a count edit carries the raw text of the field. */
  datatype Edit = NameEdit(name: string) | DescriptionEdit(description: string) | CountEdit(input: string)

  /**
   * The record one edit produces from the current local fields: the edited field takes the
   * new value (the count through `parseInt`, so unreadable text becomes NaN), and the other
   * two fields keep theirs.
   */
  function Edited(m: Metadata, e: Edit): (r: Metadata)
    ensures r.name == (if e.NameEdit? then e.name else m.name)
    ensures r.description == (if e.DescriptionEdit? then e.description else m.description)
    ensures r.count == (if e.CountEdit? then ParseInt(e.input) else m.count)
  {
    match e
    case NameEdit(n) => m.(name := n)
    case DescriptionEdit(d) => m.(description := d)
    case CountEdit(input) => m.(count := ParseInt(input))
  }

  /** The record after a run of edits, applied in order. */
  function ApplyEdits(m: Metadata, es: seq<Edit>): Metadata
    decreases |es|
  {
    if es == [] then m else ApplyEdits(Edited(m, es[0]), es[1..])
  }

  /** The value of the last name edit of the run, or `initial` when there is none. */
  function LastName(es: seq<Edit>, initial: string): string
    decreases |es|
  {
    if es == [] then initial
    else if es[|es| - 1].NameEdit? then es[|es| - 1].name
    else LastName(es[..|es| - 1], initial)
  }

  /** The value of the last description edit of the run, or `initial` when there is none. */
  function LastDescription(es: seq<Edit>, initial: string): string
    decreases |es|
  {
    if es == [] then initial
    else if es[|es| - 1].DescriptionEdit? then es[|es| - 1].description
    else LastDescription(es[..|es| - 1], initial)
  }

  /** The parsed text of the last count edit of the run, or `initial` when there is none. */
  function LastCount(es: seq<Edit>, initial: Number): Number
    decreases |es|
  {
    if es == [] then initial
    else if es[|es| - 1].CountEdit? then ParseInt(es[|es| - 1].input)
    else LastCount(es[..|es| - 1], initial)
  }

  /** Applying a run and then one more edit is applying the longer run. */
  lemma {:induction false} ApplyEditsSnoc(m: Metadata, es: seq<Edit>, e: Edit)
    ensures ApplyEdits(m, es + [e]) == Edited(ApplyEdits(m, es), e)
    decreases |es|
  {
    if es != [] {
      assert (es + [e])[1..] == es[1..] + [e];
      ApplyEditsSnoc(Edited(m, es[0]), es[1..], e);
    }
  }

  /**
   * Last write wins, field by field: after any run of edits each field holds the value of the
   * last edit of that field, and the starting value when the run never touched it.
   */
  lemma {:induction false} EditsLastWriteWins(m: Metadata, es: seq<Edit>)
    ensures ApplyEdits(m, es) == Metadata(LastName(es, m.name), LastDescription(es, m.description), LastCount(es, m.count))
    decreases |es|
  {
    if es != [] {
      var init := es[..|es| - 1];
      var e := es[|es| - 1];
      assert init + [e] == es;
      ApplyEditsSnoc(m, init, e);
      EditsLastWriteWins(m, init);
    }
  }

  /**
   * The editor's local fields and handlers. `parent` is the page session (its metadata, and
   * its images, which decide whether the count may be edited); `store` is the durable store.
   * The ghost fields record the starting record and the edits made so far.
   */
  class MetadataEditor<Nft, Image> {
    var name: string
    var description: string
    var count: Number
    const parent: FormSession<Nft, Image>
    const store: KeyValueStore
    ghost var initial: Metadata
    ghost var history: seq<Edit>

    /** The record the local fields make up. */
    function Local(): Metadata
      reads this
    {
      Metadata(name, description, count)
    }

    /**
     * The local fields are the initial record with the edits so far applied. The session holds
     * the same record. Once there has been an edit, the store holds it too.
     */
    ghost predicate Valid()
      reads this, parent, store
    {
      store.Valid() &&
      Local() == ApplyEdits(initial, history) &&
      parent.metadata == Local() &&
      (history != [] ==> MetadataKey in store.entries && store.entries[MetadataKey] == Record(Local()))
    }

    /** The local fields start as the metadata the editor is given. */
    constructor (parent: FormSession<Nft, Image>, store: KeyValueStore)
      requires store.Valid()
      ensures Valid() && Local() == parent.metadata && history == []
      ensures this.parent == parent && this.store == store
    {
      name := parent.metadata.name;
      description := parent.metadata.description;
      count := parent.metadata.count;
      this.parent := parent;
      this.store := store;
      initial := parent.metadata;
      history := [];
    }

    /** The count input is enabled only when exactly one image has been uploaded. */
    predicate CountEnabled()
      reads this, parent
    {
      |parent.images| == 1
    }

    /** One edit: the new record goes to the session, then to the store, then to the local field. */
    method Apply(e: Edit)
      requires Valid()
      modifies this`name, this`description, this`count, this`history, parent`metadata, store`entries
      ensures Valid() && history == old(history) + [e]
      ensures Local() == Edited(old(Local()), e)
      ensures parent.metadata == Local()
      ensures store.entries == old(store.entries)[MetadataKey := Record(Local())]
    {
      var record := Edited(Local(), e);
      parent.SetMetadata(record);
      store.Set(MetadataKey, Record(record));
      name, description, count := record.name, record.description, record.count;
      ApplyEditsSnoc(initial, history, e);
      history := history + [e];
    }

    /** The name input's change handler. */
    method EditName(value: string)
      requires Valid()
      modifies this`name, this`description, this`count, this`history, parent`metadata, store`entries
      ensures Valid() && history == old(history) + [NameEdit(value)]
      ensures Local() == Metadata(value, old(description), old(count))
      ensures store.entries == old(store.entries)[MetadataKey := Record(parent.metadata)]
    {
      Apply(NameEdit(value));
    }

    /** The description input's change handler. */
    method EditDescription(value: string)
      requires Valid()
      modifies this`name, this`description, this`count, this`history, parent`metadata, store`entries
      ensures Valid() && history == old(history) + [DescriptionEdit(value)]
      ensures Local() == Metadata(old(name), value, old(count))
      ensures store.entries == old(store.entries)[MetadataKey := Record(parent.metadata)]
    {
      Apply(DescriptionEdit(value));
    }

    /** The count input's change handler; text `parseInt` cannot read is stored as NaN. */
    method EditCount(input: string)
      requires Valid() && CountEnabled()
      modifies this`name, this`description, this`count, this`history, parent`metadata, store`entries
      ensures Valid() && history == old(history) + [CountEdit(input)]
      ensures Local() == Metadata(old(name), old(description), ParseInt(input))
      ensures store.entries == old(store.entries)[MetadataKey := Record(parent.metadata)]
    {
      Apply(CountEdit(input));
    }
  }
}
