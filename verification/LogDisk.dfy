/**
The log's path as its writer and its follower share it (cmd/maktaba-launcher/logfile.go,
cmd/maktaba-server/cmd_container.go): every file the path ever named, oldest first. A
rotation renames the newest aside and a later open makes the next one.
*/
module LogDisk {

  datatype Disk = Disk(
    files: seq<string>, // what each file holds, oldest first
    linked: bool,       // the path names the newest one
    open: bool)         // the writer has the newest one open

  datatype Op =
    | Append(bytes: string)
    | CloseFile
    | Rename
    | OpenFile // for appending, made when the path names nothing

  predicate WellFormed(d: Disk) {
    (d.linked ==> d.files != []) && (d.open ==> d.linked)
  }

  predicate Legal(d: Disk, op: Op) {
    match op
    case Append(_) => d.open
    case CloseFile => d.open
    case Rename => d.linked && !d.open
    case OpenFile => !d.open
  }

  function Do(d: Disk, op: Op): (r: Disk)
    requires WellFormed(d) && Legal(d, op)
    ensures WellFormed(r)
  {
    match op
    case Append(bytes) =>
      var last := |d.files| - 1;
      d.(files := d.files[last := d.files[last] + bytes])
    case CloseFile => d.(open := false)
    case Rename => d.(linked := false)
    case OpenFile =>
      if d.linked then d.(open := true) else Disk(d.files + [""], true, true)
  }

  function Newest(d: Disk): string
    requires d.files != []
  {
    d.files[|d.files| - 1]
  }

  ghost predicate LegalAll(d: Disk, ops: seq<Op>)
    requires WellFormed(d)
    decreases |ops|
  {
    ops == [] || (Legal(d, ops[0]) && LegalAll(Do(d, ops[0]), ops[1..]))
  }

  ghost function DoAll(d: Disk, ops: seq<Op>): (r: Disk)
    requires WellFormed(d) && LegalAll(d, ops)
    ensures WellFormed(r)
    decreases |ops|
  {
    if ops == [] then d else DoAll(Do(d, ops[0]), ops[1..])
  }

  lemma {:induction false} DoOneMore(d: Disk, ops: seq<Op>, op: Op)
    requires WellFormed(d) && LegalAll(d, ops) && Legal(DoAll(d, ops), op)
    ensures LegalAll(d, ops + [op]) && DoAll(d, ops + [op]) == Do(DoAll(d, ops), op)
    decreases |ops|
  {
    if ops == [] {
      assert [op][1..] == [];
      assert ops + [op] == [op];
    } else {
      DoOneMore(Do(d, ops[0]), ops[1..], op);
      assert (ops + [op])[1..] == ops[1..] + [op];
    }
  }

  /** The files' bytes, oldest first. */
  function Flat(files: seq<string>): string {
    if files == [] then "" else Flat(files[..|files| - 1]) + files[|files| - 1]
  }

  /** Everything ever appended to the log. */
  function Stream(d: Disk): string { Flat(d.files) }

  lemma StreamGrows(d: Disk, op: Op)
    requires WellFormed(d) && Legal(d, op)
    ensures Stream(Do(d, op)) == Stream(d) + (if op.Append? then op.bytes else "")
  {
    var d' := Do(d, op);
    if op.Append? {
      assert d'.files[..|d'.files| - 1] == d.files[..|d.files| - 1];
    } else if op.OpenFile? && !d.linked {
      assert d'.files[..|d'.files| - 1] == d.files;
    }
  }

  lemma {:induction false} FlatSplit(files: seq<string>, n: nat)
    requires n <= |files|
    ensures Flat(files) == Flat(files[..n]) + Flat(files[n..])
    decreases |files|
  {
    if n == |files| {
      assert files[..n] == files;
    } else {
      var m := |files| - 1;
      FlatSplit(files[..m], n);
      assert files[..m][..n] == files[..n];
      assert files[n..][..m - n] == files[..m][n..];
    }
  }
}
