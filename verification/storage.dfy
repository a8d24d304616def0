/**
 * The durable storage the extension writes through (Oxide's DataFileSystem), reduced to
 * what the data manager observes: which paths exist, what a path reads as, and the
 * sequence of WriteObject calls made so far.
 */
module Storage {
  import opened Wrappers
  import opened Records

  /** One WriteObject call: the path written and the record serialised there. */
  datatype Write = Write(path: string, data: Record)

  /**
   * The files after performing `ws` in order on `files`. A path maps to None when the
   * file exists but does not deserialise (ReadObject yields null).
   */
  function Apply(files: map<string, Option<Record>>, ws: seq<Write>): map<string, Option<Record>>
    decreases |ws|
  {
    if ws == [] then files
    else
      var last := ws[|ws| - 1];
      Apply(files, ws[..|ws| - 1])[last.path := Some(last.data)]
  }

  lemma ApplyAppend(files: map<string, Option<Record>>, ws: seq<Write>, w: Write)
    ensures Apply(files, ws + [w]) == Apply(files, ws)[w.path := Some(w.data)]
  {
    assert (ws + [w])[..|ws|] == ws;
  }

  lemma ApplyOne(files: map<string, Option<Record>>, w: Write)
    ensures Apply(files, [w]) == files[w.path := Some(w.data)]
  {
    ApplyAppend(files, [], w);
    assert [] + [w] == [w];
  }

  /** Writing `a` and then `b` leaves the same files as writing `a + b`. */
  lemma {:induction false} ApplyConcat(files: map<string, Option<Record>>, a: seq<Write>, b: seq<Write>)
    ensures Apply(files, a + b) == Apply(Apply(files, a), b)
    decreases |b|
  {
    if b == [] {
      assert a + b == a;
    } else {
      var init := b[..|b| - 1];
      var last := b[|b| - 1];
      assert b == init + [last];
      assert a + b == (a + init) + [last];
      ApplyAppend(files, a + init, last);
      ApplyConcat(files, a, init);
      ApplyAppend(Apply(files, a), init, last);
    }
  }

  /** Two batches of writes made one after the other are one batch of their concatenation. */
  lemma LoggedTwice(log0: seq<Write>, files0: map<string, Option<Record>>,
                    log1: seq<Write>, files1: map<string, Option<Record>>,
                    log2: seq<Write>, files2: map<string, Option<Record>>, a: seq<Write>, b: seq<Write>)
    requires log1 == log0 + a && files1 == Apply(files0, a)
    requires log2 == log1 + b && files2 == Apply(files1, b)
    ensures log2 == log0 + (a + b) && files2 == Apply(files0, a + b)
  {
    ApplyConcat(files0, a, b);
  }

  class DataFileSystem {
    /** What each existing path currently holds. */
    var files: map<string, Option<Record>>
    /** Every WriteObject call, oldest first. */
    var log: seq<Write>

    constructor (files: map<string, Option<Record>>)
      ensures this.files == files && log == []
    {
      this.files := files;
      log := [];
    }

    predicate ExistsDatafile(path: string)
      reads this
    {
      path in files
    }

    /** Between the caller's pre-state and now, exactly the writes `w` were made, in order. */
    twostate predicate Logged(w: seq<Write>)
      reads this
    {
      log == old(log) + w && files == Apply(old(files), w)
    }

    method WriteObject(path: string, data: Record)
      modifies this
      ensures Logged([Write(path, data)])
      ensures files[path] == Some(data)
    {
      ApplyAppend(files, [], Write(path, data));
      files := files[path := Some(data)];
      log := log + [Write(path, data)];
    }
  }
}
