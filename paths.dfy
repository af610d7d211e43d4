/** POSIX path manipulation as `os.path` does it, and the names the stages
    derive for their outputs. */
module Paths {
  import opened Strings

  /** `os.path.join(dir, name)`. */
  function Join(dir: string, name: string): string {
    if name != [] && name[0] == '/' then name
    else if dir == [] || dir[|dir| - 1] == '/' then dir + name
    else dir + "/" + name
  }

  /** `os.path.basename(p)`. */
  function Basename(p: string): (r: string)
    ensures '/' !in r
    ensures EndsWith(p, r)
  {
    AfterLast(p, '/')
  }

  /** `os.path.splitext(b)[0]` for a name `b` without a directory part:
      everything before the last `.`, unless only dots precede it
      (`.bashrc` and `..x` have no extension). */
  function Stem(b: string): (r: string)
    ensures StartsWith(b, r)
    ensures r == b || (b[|r|] == '.' && '.' !in b[|r| + 1..])
    ensures r == b <==> ('.' !in b || forall i :: 0 <= i < |b| - |AfterLast(b, '.')| - 1 ==> b[i] == '.')
  {
    if '.' !in b then b
    else
      var ext := AfterLast(b, '.');
      var dot := |b| - |ext| - 1;
      assert b[dot + 1..] == ext;
      if exists i :: 0 <= i < dot && b[i] != '.' then b[..dot] else b
  }

  /** The file an extracted track is written to: `audio_dir/<stem>.mp3`. */
  function AudioPath(audioDir: string, vpath: string): string {
    Join(audioDir, Stem(Basename(vpath)) + ".mp3")
  }

  /** The file a trimmed clip is written to: `clip_dir/clip_<basename>`. */
  function ClipPath(clipDir: string, apath: string): string {
    Join(clipDir, "clip_" + Basename(apath))
  }

  /** A name joined onto a directory is its own basename again. */
  lemma BasenameJoin(dir: string, name: string)
    requires '/' !in name
    ensures Basename(Join(dir, name)) == name
  {
    if dir == [] {
    } else if dir[|dir| - 1] == '/' {
      var d := dir[..|dir| - 1];
      assert dir + name == d + ['/'] + name;
      AfterLastOfJoin(d, '/', name);
    } else {
      assert dir + "/" + name == dir + ['/'] + name;
      AfterLastOfJoin(dir, '/', name);
    }
  }

  /** The extension after the last dot is what `splitext` removes. */
  lemma StemOfName(t: string, ext: string)
    requires '.' !in ext
    requires exists i :: 0 <= i < |t| && t[i] != '.'
    ensures Stem(t + "." + ext) == t
  {
    var b := t + "." + ext;
    assert b == (t + ['.']) + ext;
    AfterLastOfJoin(t, '.', ext);
    var i :| 0 <= i < |t| && t[i] != '.';
    assert b[i] == t[i];
    assert b[..|t|] == t;
  }

  lemma StemNoSlash(b: string)
    requires '/' !in b
    ensures '/' !in Stem(b) + ".mp3"
  {
    var r := Stem(b);
    assert forall i :: 0 <= i < |r| ==> r[i] == b[i];
  }

  /** A video's clip is named after its stem: `clip_dir/clip_<stem>.mp3`. */
  lemma ClipOfVideo(audioDir: string, clipDir: string, vpath: string)
    ensures ClipPath(clipDir, AudioPath(audioDir, vpath))
         == Join(clipDir, "clip_" + Stem(Basename(vpath)) + ".mp3")
  {
    var n := Stem(Basename(vpath)) + ".mp3";
    StemNoSlash(Basename(vpath));
    BasenameJoin(audioDir, n);
    assert "clip_" + Stem(Basename(vpath)) + ".mp3" == "clip_" + n;
  }

  /** A downloaded file `dir/<title>.<ext>` is extracted to `audio_dir/<title>.mp3`. */
  lemma AudioOfDownload(dir: string, audioDir: string, title: string, ext: string)
    requires '/' !in title && '.' !in ext && '/' !in ext
    requires exists i :: 0 <= i < |title| && title[i] != '.'
    ensures AudioPath(audioDir, Join(dir, title + "." + ext)) == Join(audioDir, title + ".mp3")
  {
    var name := title + "." + ext;
    assert '/' !in name by {
      assert forall i :: 0 <= i < |name| ==> name[i] == '.' || name[i] in title || name[i] in ext;
    }
    BasenameJoin(dir, name);
    StemOfName(title, ext);
  }
}
