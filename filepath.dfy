/**
 * Go's `filepath.Base` with Unix semantics: the separator is '/', there is
 * no volume name. Trailing slashes are removed, then the text after the last
 * remaining slash is the base; an empty path gives ".", and a path made only
 * of slashes gives "/".
 */
module FilePath {

  /** The path with every trailing '/' removed. */
  function TrimTrailingSlashes(p: string): (t: string)
    ensures t <= p
    ensures t == [] || t[|t| - 1] != '/'
    ensures forall i :: |t| <= i < |p| ==> p[i] == '/'
    decreases |p|
  {
    if p != [] && p[|p| - 1] == '/' then TrimTrailingSlashes(p[..|p| - 1]) else p
  }

  /** The longest suffix of `t` that holds no '/'. */
  function LastElement(t: string): (e: string)
    ensures |e| <= |t| && e == t[|t| - |e|..]
    ensures '/' !in e
    ensures |e| == |t| || t[|t| - |e| - 1] == '/'
    decreases |t|
  {
    if t == [] || t[|t| - 1] == '/' then []
    else
      var front := t[..|t| - 1];
      var e := LastElement(front) + [t[|t| - 1]];
      assert t == front + [t[|t| - 1]];
      e
  }

  /** `filepath.Base(path)` on Unix. */
  function Base(path: string): (b: string)
    ensures b != []
    ensures path == [] ==> b == "."
    ensures '/' in b ==> b == "/"
    ensures b == "/" <==> path != [] && forall i :: 0 <= i < |path| ==> path[i] == '/'
  {
    if path == [] then "."
    else
      var t := TrimTrailingSlashes(path);
      if t == [] then "/" else LastElement(t)
  }

  /** A non-empty name without slashes is its own base. */
  lemma BaseOfName(name: string)
    requires name != [] && '/' !in name
    ensures Base(name) == name
  {
    LastElementOfName(name);
  }

  lemma {:induction false} LastElementOfName(name: string)
    requires '/' !in name
    ensures LastElement(name) == name
    decreases |name|
  {
    if name != [] {
      assert name == name[..|name| - 1] + [name[|name| - 1]];
      LastElementOfName(name[..|name| - 1]);
    }
  }

  /** The base of `dir + "/" + name` is `name`, whatever `dir` is. */
  lemma BaseOfChild(dir: string, name: string)
    requires name != [] && '/' !in name
    ensures Base(dir + "/" + name) == name
  {
    var p := dir + "/" + name;
    LastElementAfterSlash(dir + "/", name);
  }

  lemma {:induction false} LastElementAfterSlash(front: string, name: string)
    requires front != [] && front[|front| - 1] == '/'
    requires '/' !in name
    ensures LastElement(front + name) == name
    decreases |name|
  {
    if name != [] {
      var shorter := name[..|name| - 1];
      assert (front + name)[..|front + name| - 1] == front + shorter;
      LastElementAfterSlash(front, shorter);
      assert name == shorter + [name[|name| - 1]];
    }
  }

  /**
   * Appending slash-free text to a path that does not end in '/' appends
   * it to the base as well.
   */
  lemma BaseAppend(p: string, x: string)
    requires p != [] && p[|p| - 1] != '/'
    requires '/' !in x
    ensures Base(p + x) == Base(p) + x
  {
    if x != [] {
      assert TrimTrailingSlashes(p + x) == p + x;
      LastElementAppend(p, x);
    } else {
      assert p + x == p;
    }
  }

  lemma {:induction false} LastElementAppend(t: string, x: string)
    requires t != [] && t[|t| - 1] != '/'
    requires '/' !in x
    ensures LastElement(t + x) == LastElement(t) + x
    decreases |x|
  {
    if x == [] {
      assert t + x == t;
    } else {
      var shorter, last := x[..|x| - 1], x[|x| - 1];
      assert t + x == (t + shorter) + [last] by {
        assert x == shorter + [last];
      }
      LastElementAppend(t, shorter);
      LastElementSnoc(t + shorter, last);
    }
  }

  /** One more character that is not '/' extends the last element. */
  lemma LastElementSnoc(s: string, c: char)
    requires c != '/'
    ensures LastElement(s + [c]) == LastElement(s) + [c]
  {
    assert (s + [c])[..|s|] == s;
  }
}
