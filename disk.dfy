/** The part of the filesystem the pipeline touches: which directories exist
    and which exported files hold what audio. Files inside the staging
    directories are not tracked. */
module Disk {
  import opened Common

  class FileSystem {
    var dirs: set<string>
    var files: map<string, Audio>

    constructor (dirs: set<string>, files: map<string, Audio>)
      ensures this.dirs == dirs && this.files == files
    {
      this.dirs := dirs;
      this.files := files;
    }

    /** `os.path.exists(d)` for a directory. */
    predicate Exists(d: string)
      reads this
    {
      d in dirs
    }

    /** `os.makedirs(d, exist_ok=True)`. */
    method MakeDirs(d: string)
      modifies this
      ensures dirs == old(dirs) + {d} && files == old(files)
    {
      dirs := dirs + {d};
    }

    /** `shutil.rmtree(d)` on an existing directory. */
    method RemoveTree(d: string)
      requires Exists(d)
      modifies this
      ensures dirs == old(dirs) - {d} && files == old(files)
    {
      dirs := dirs - {d};
    }

    /** `segment.export(path)`: the file now holds `audio`. */
    method Export(path: string, audio: Audio)
      modifies this
      ensures files == old(files)[path := audio] && dirs == old(dirs)
    {
      files := files[path := audio];
    }

    /** `os.remove(path)` on an existing file. */
    method Remove(path: string)
      requires path in files
      modifies this
      ensures files == old(files) - {path} && dirs == old(dirs)
    {
      files := files - {path};
    }
  }

  /** The `finally` block of both front ends:
      `for d in ds: if os.path.exists(d): shutil.rmtree(d)`. */
  method RemoveStagingDirs(fs: FileSystem, ds: seq<string>)
    modifies fs
    ensures fs.dirs == old(fs.dirs) - set d | d in ds
    ensures fs.files == old(fs.files)
  {
    for k := 0 to |ds|
      invariant fs.dirs == old(fs.dirs) - set d | d in ds[..k]
      invariant fs.files == old(fs.files)
    {
      var d := ds[k];
      if fs.Exists(d) {
        fs.RemoveTree(d);
      }
      assert ds[..k + 1] == ds[..k] + [d];
    }
    assert ds[..|ds|] == ds;
  }
}
