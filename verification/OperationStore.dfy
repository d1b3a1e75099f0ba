/** The store of journal files: create, replace and read, each write whole or not at all (standalone/mutations.py). */
module OperationStore {
  import opened Prelude
  import opened Journal
  import opened JournalCodec

  datatype StoreError = StateInvalid | NotFound

  function NewRecord(id: Uuid, account: Uuid, kind: Kind, action: Option<Action>): Operation {
    Operation(VERSION, id, account, kind, Received, None, None, None, [], action)
  }

  ghost predicate IsFileOf(id: Uuid, text: string) {
    exists o: Operation :: Valid(o) && o.id == id && Encode(o) == Some(text)
  }

  class Store {
    var files: map<Uuid, string>

    /** Every file is the encoding of a valid record of its own id. */
    ghost predicate Consistent()
      reads this
    {
      forall id <- files :: IsFileOf(id, files[id])
    }

    constructor ()
      ensures files == map[] && Consistent()
    {
      files := map[];
    }

    /** `disk` is whether the file system lets the write happen; the id is the fresh one drawn by the caller. */
    method CreateReceived(id: Uuid, account: Uuid, kind: Kind, action: Option<Action>, disk: bool)
      returns (r: Result<Operation, StoreError>)
      modifies this
      ensures old(Consistent()) ==> Consistent()
      ensures r.Success? <==> disk && id !in old(files) && Valid(NewRecord(id, account, kind, action))
      ensures r.Success? ==>
                && r.value == NewRecord(id, account, kind, action)
                && files == old(files)[id := Encode(r.value).value]
      ensures r.Failure? ==> files == old(files)
    {
      var o := NewRecord(id, account, kind, action);
      var text := Encode(o);
      if id in files || text.None? || !disk {
        return Failure(StateInvalid);
      }
      files := files[id := text.value];
      assert IsFileOf(id, text.value);
      r := Success(o);
    }

    /** A file is read as the one record it is the file of, or as no record: the reader never makes one up. */
    method Get(id: Uuid) returns (r: Result<Operation, StoreError>)
      ensures r == Failure(NotFound) <==> id !in files
      ensures r.Success? ==> Valid(r.value) && r.value.id == id && Decode(files[id], id) == Some(r.value)
      ensures id in files && r.Failure? ==> Decode(files[id], id).None?
      ensures forall o: Operation {:trigger Encode(o)} :: Valid(o) && o.id == id && id in files && Encode(o) == Some(files[id]) ==> r == Success(o)
      ensures Consistent() && id in files ==> r.Success? && Encode(r.value) == Some(files[id])
    {
      if id !in files {
        return Failure(NotFound);
      }
      var o := Decode(files[id], id);
      r := if o.Some? then Success(o.value) else Failure(StateInvalid);
      forall o: Operation | Valid(o) && o.id == id && Encode(o) == Some(files[id]) ensures r == Success(o) {
        DecodeInvertsEncode(o);
      }
      if Consistent() {
        StoreReadsBack(this, id);
      }
    }

    /** Replaces a record by an allowed successor of the one on disk. */
    method Update(o: Operation, disk: bool) returns (r: Result<Operation, StoreError>)
      modifies this
      ensures old(Consistent()) ==> Consistent()
      ensures r.Success? <==>
                && disk && Valid(o) && o.id in old(files)
                && Decode(old(files)[o.id], o.id).Some? && MayUpdate(Decode(old(files)[o.id], o.id).value, o)
      ensures r.Success? ==> r.value == o && files == old(files)[o.id := Encode(o).value]
      ensures r.Failure? ==> files == old(files)
    {
      if !Valid(o) {
        return Failure(StateInvalid);
      }
      var current := Get(o.id);
      if current.Failure? || !MayUpdate(current.value, o) || !disk {
        return Failure(StateInvalid);
      }
      var text := Encode(o).value;
      assert IsFileOf(o.id, text);
      files := files[o.id := text];
      r := Success(o);
    }
  }

  /** A consistent store can read every file it holds, as a valid record of that id. */
  lemma StoreReadsBack(store: Store, id: Uuid)
    requires store.Consistent() && id in store.files
    ensures Decode(store.files[id], id).Some?
    ensures var o := Decode(store.files[id], id).value; Valid(o) && o.id == id && Encode(o) == Some(store.files[id])
  {
    assert IsFileOf(id, store.files[id]);
    var o: Operation :| Valid(o) && o.id == id && Encode(o) == Some(store.files[id]);
    DecodeInvertsEncode(o);
  }
}
