/**
 * The file system as the chunk store sees it: paths made of name segments,
 * and a store mapping each existing file to its bytes. Which reads and
 * writes fail is up to the environment: the store carries the set of paths
 * that currently cannot be read and the set that currently cannot be written.
 */
module Files {
  import opened JavaTypes
  import opened Wrappers

  datatype Path = Path(segments: seq<string>)
  {
    /** `Path.resolve` with a single relative name: one more segment. */
    function Resolve(name: string): (p: Path)
      ensures |p.segments| == |segments| + 1
      ensures p.segments[..|segments|] == segments && p.segments[|segments|] == name
    {
      Path(segments + [name])
    }
  }

  datatype IoError = IoError

  class FileStore {
    var files: map<Path, seq<Byte>>
    var unreadable: set<Path>
    var unwritable: set<Path>

    constructor (files: map<Path, seq<Byte>>, unreadable: set<Path>, unwritable: set<Path>)
      ensures this.files == files && this.unreadable == unreadable && this.unwritable == unwritable
    {
      this.files, this.unreadable, this.unwritable := files, unreadable, unwritable;
    }

    function Exists(p: Path): (b: bool)
      reads this
      ensures b <==> p in files
    {
      p in files
    }

    /** Reads a whole file; fails when the file is missing or unreadable. */
    method Read(p: Path) returns (r: Result<seq<Byte>, IoError>)
      ensures r.Ok? <==> p in files && p !in unreadable
      ensures r.Ok? ==> r.value == files[p]
    {
      if p in files && p !in unreadable {
        r := Ok(files[p]);
      } else {
        r := Err(IoError);
      }
    }

    /** Replaces a file's contents. A failed write may leave that one file in
        any state; no other file changes either way. */
    method Write(p: Path, bytes: seq<Byte>) returns (ok: bool)
      modifies this
      ensures ok <==> p !in old(unwritable)
      ensures ok ==> files == old(files)[p := bytes]
      ensures forall q :: q != p ==> (q in files <==> q in old(files))
      ensures forall q :: q != p && q in files ==> files[q] == old(files)[q]
      ensures unreadable == old(unreadable) && unwritable == old(unwritable)
    {
      ok := p !in unwritable;
      if ok {
        files := files[p := bytes];
      }
    }
  }
}
