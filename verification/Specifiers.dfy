/** Which texts are instance specifiers: paths of short names. */
module Specifiers {

  import opened Deployments

  predicate IsNameChar(c: char)
  {
    'A' <= c <= 'Z' || 'a' <= c <= 'z' || '0' <= c <= '9' || c == '_'
  }

  predicate IsName(n: string) { n != "" && forall k :: 0 <= k < |n| ==> IsNameChar(n[k]) }

  predicate AreNames(names: seq<string>)
  {
    names != [] && forall k :: 0 <= k < |names| ==> IsName(names[k])
  }

  /** The names with a slash between each two of them. */
  function Path(names: seq<string>): string
    requires names != []
  {
    if |names| == 1 then names[0] else names[0] + "/" + Path(names[1..])
  }

  /** A path starts with a slash or with anything but a digit. */
  ghost predicate IsPath(s: string)
  {
    && s != "" && !('0' <= s[0] <= '9')
    && exists names :: AreNames(names) && (s == Path(names) || s == "/" + Path(names))
  }

  /** What the expressions leave of a text behind its leading slash. */
  predicate IsBody(s: string)
  {
    && s != "" && s[0] != '/' && s[|s| - 1] != '/'
    && (forall k :: 0 <= k < |s| ==> IsNameChar(s[k]) || s[k] == '/')
    && forall k :: 0 <= k < |s| - 1 ==> !(s[k] == '/' && s[k + 1] == '/')
  }

  lemma {:induction false} PathIsBody(names: seq<string>)
    requires AreNames(names)
    ensures IsBody(Path(names))
  {
    if |names| > 1 {
      PathIsBody(names[1..]);
      var s, n := Path(names), |names[0]|;
      assert s[n] == '/' && s[n + 1..] == Path(names[1..]);
      forall k | 0 <= k < |s|
        ensures IsNameChar(s[k]) || s[k] == '/'
        ensures k < |s| - 1 ==> !(s[k] == '/' && s[k + 1] == '/')
      {
        if k < n {
          assert s[k] == names[0][k];
        } else if k > n {
          assert s[k] == Path(names[1..])[k - n - 1];
        }
      }
    }
  }

  lemma {:induction false} BodyIsPath(s: string) returns (names: seq<string>)
    requires IsBody(s)
    ensures AreNames(names) && s == Path(names)
    decreases |s|
  {
    if '/' in s {
      var i := 0;
      while s[i] != '/'
        invariant 0 <= i < |s| && '/' !in s[..i]
        decreases |s| - i
      {
        assert s[..i + 1] == s[..i] + [s[i]];
        assert '/' in s[i + 1..];
        i := i + 1;
      }
      assert s[i + 1] != '/';
      var rest := BodyIsPath(s[i + 1..]);
      names := [s[..i]] + rest;
      assert names[1..] == rest;
      assert forall k :: 0 <= k < i ==> s[k] == s[..i][k];
      assert s == s[..i] + "/" + s[i + 1..];
    } else {
      names := [s];
    }
  }

  /** Behind its leading slash, if any, an accepted text is a body. */
  lemma ValidIffBody(s: string)
    ensures IsShortNameValid(s) <==>
              s != "" && !('0' <= s[0] <= '9') && (IsBody(s) || (s[0] == '/' && IsBody(s[1..])))
  {
    if s != "" && s[0] == '/' && |s| > 1 {
      var t := s[1..];
      assert forall k :: 0 <= k < |t| ==> t[k] == s[k + 1];
      if IsBody(t) {
        forall k | 0 <= k < |s| ensures IsShortNameStart(s[k]) || '0' <= s[k] <= '9' {
          if k > 0 {
            assert s[k] == t[k - 1];
          }
        }
        forall k | 0 <= k < |s| - 1 ensures !(s[k] == '/' && s[k + 1] == '/') {
          assert s[k + 1] == t[k];
        }
      }
    }
  }

  /** A text is an instance specifier exactly if it is such a path, up to its first
      NUL. */
  lemma SpecifierIff(s: string)
    ensures IsSpecifier(s) <==> IsPath(CString(s))
  {
    var c := CString(s);
    ValidIffBody(c);
    hide IsBody, IsShortNameValid, CString;
    if IsPath(c) {
      var names :| AreNames(names) && (c == Path(names) || c == "/" + Path(names));
      PathIsBody(names);
      assert c[0] == '/' ==> ("/" + Path(names))[1..] == Path(names);
    }
    if IsSpecifier(s) {
      if IsBody(c) {
        var names := BodyIsPath(c);
      } else {
        var names := BodyIsPath(c[1..]);
        assert c == "/" + Path(names);
      }
    }
  }
}
