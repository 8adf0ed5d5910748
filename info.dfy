/**
 * The `info` section of the OpenAPI document (src/info.js): the title is the
 * export element's name, and the version and description are read off the
 * export element's free-text documentation.
 */
module Info {
  import opened Wrappers

  /** JavaScript's `s.split(sep)` for a one-character separator: never empty. */
  function Split(s: string, sep: char): (r: seq<string>)
    ensures |r| >= 1
  {
    if s == [] then [""]
    else
      var rest := Split(s[1..], sep);
      if s[0] == sep then [""] + rest
      else [[s[0]] + rest[0]] + rest[1..]
  }

  /** The inverse of Split: the pieces glued back together with `sep`. */
  function Join(pieces: seq<string>, sep: char): string
  {
    if |pieces| == 0 then ""
    else if |pieces| == 1 then pieces[0]
    else pieces[0] + [sep] + Join(pieces[1..], sep)
  }

  /** Splitting and joining again gives back the original string. */
  lemma {:induction false} JoinSplit(s: string, sep: char)
    ensures Join(Split(s, sep), sep) == s
  {
    if s != [] {
      var rest := Split(s[1..], sep);
      JoinSplit(s[1..], sep);
      if s[0] == sep {
        assert Split(s, sep) == [""] + rest;
        assert (([""] + rest)[1..]) == rest;
        assert Join([""] + rest, sep) == "" + [sep] + Join(rest, sep);
      } else {
        var p := [[s[0]] + rest[0]] + rest[1..];
        assert Split(s, sep) == p;
        if |rest| == 1 {
          assert Join(p, sep) == [s[0]] + rest[0];
        } else {
          assert p[1..] == rest[1..];
          assert Join(rest, sep) == rest[0] + [sep] + Join(rest[1..], sep);
        }
        assert s == [s[0]] + s[1..];
      }
    }
  }

  /** No piece contains the separator, and every character of a piece comes from `s`. */
  lemma {:induction false} SplitPieces(s: string, sep: char)
    ensures forall i, k :: 0 <= i < |Split(s, sep)| && 0 <= k < |Split(s, sep)[i]| ==>
      Split(s, sep)[i][k] != sep && Split(s, sep)[i][k] in s
  {
    if s != [] {
      SplitPieces(s[1..], sep);
      var rest := Split(s[1..], sep);
      forall i, k | 0 <= i < |Split(s, sep)| && 0 <= k < |Split(s, sep)[i]|
        ensures Split(s, sep)[i][k] != sep && Split(s, sep)[i][k] in s
      {
        var r := Split(s, sep);
        if s[0] == sep {
          assert r[i] == rest[i - 1];
          assert rest[i - 1][k] in s[1..];
        } else if i == 0 {
          if k > 0 {
            assert r[0][k] == rest[0][k - 1];
            assert rest[0][k - 1] in s[1..];
          }
        } else {
          assert r[i] == rest[i];
          assert rest[i][k] in s[1..];
        }
      }
    }
  }

  /** A string without the separator splits into itself alone. */
  lemma {:induction false} SplitNoSeparator(s: string, sep: char)
    requires sep !in s
    ensures Split(s, sep) == [s]
  {
    if s != [] {
      assert sep !in s[1..];
      SplitNoSeparator(s[1..], sep);
      assert s == [s[0]] + s[1..];
    }
  }

  /** The first separator cuts off the first piece; the rest splits on its own. */
  lemma {:induction false} SplitFirst(a: string, sep: char, b: string)
    requires sep !in a
    ensures Split(a + [sep] + b, sep) == [a] + Split(b, sep)
  {
    if a == [] {
      assert a + [sep] + b == [sep] + b;
      assert ([sep] + b)[1..] == b;
    } else {
      var s := a + [sep] + b;
      assert s[0] == a[0] && s[1..] == a[1..] + [sep] + b;
      assert sep !in a[1..];
      SplitFirst(a[1..], sep, b);
      assert a == [a[0]] + a[1..];
    }
  }

  /** The record the constructor stores in `mainInfoObj`. */
  datatype InfoObject = InfoObject(description: string, title: string, version: string)

  /** An `Info` instance; `GetInfo` hands back what the constructor stored. */
  datatype Info = Info(mainInfoObj: InfoObject)
  {
    /** `getInfo()`: the stored record itself. */
    function GetInfo(): InfoObject
    {
      mainInfoObj
    }
  }

  /** The second ':'-separated field of the first line, or '' when there is none. */
  function VersionOf(documentation: string): string
  {
    var lines := Split(documentation, '\n');
    var fields := Split(lines[0], ':');
    if |fields| > 1 then fields[1] else ""
  }

  /** The second line followed by `<br><br>` and the fixed message, or '' for a single line. */
  function DescriptionOf(documentation: string, msgDescription: string): string
  {
    var lines := Split(documentation, '\n');
    if |lines| > 1 then lines[1] + "<br><br>" + msgDescription else ""
  }

  /**
   * The `Info` constructor. `documentation` is None when the export element has
   * no own `documentation` property; `exportElementName` is what the OpenAPI
   * module reports as the export element's name; `msgDescription` is the
   * configured boilerplate suffix.
   */
  function NewInfo(documentation: Option<string>, exportElementName: string, msgDescription: string): (info: Info)
    ensures info.mainInfoObj.title == exportElementName
    ensures documentation.None? ==> info.mainInfoObj.version == "" && info.mainInfoObj.description == ""
    ensures documentation.Some? ==> info.mainInfoObj.version == VersionOf(documentation.value)
    ensures documentation.Some? ==> info.mainInfoObj.description == DescriptionOf(documentation.value, msgDescription)
  {
    var version := if documentation.Some? then VersionOf(documentation.value) else "";
    var description := if documentation.Some? then DescriptionOf(documentation.value, msgDescription) else "";
    Info(InfoObject(description, exportElementName, version))
  }

  /** `getInfo` returns the record the constructor built, field for field. */
  lemma GetInfoReturnsConstructed(documentation: string, exportElementName: string, msgDescription: string)
    ensures NewInfo(Some(documentation), exportElementName, msgDescription).GetInfo()
         == InfoObject(DescriptionOf(documentation, msgDescription), exportElementName, VersionOf(documentation))
  {
  }

  /** The version never contains the field separator ':' nor a line break. */
  lemma VersionHasNoSeparators(documentation: string)
    ensures ':' !in VersionOf(documentation)
    ensures '\n' !in VersionOf(documentation)
  {
    var lines := Split(documentation, '\n');
    var fields := Split(lines[0], ':');
    SplitPieces(documentation, '\n');
    SplitPieces(lines[0], ':');
    if |fields| > 1 {
      forall k | 0 <= k < |fields[1]| ensures fields[1][k] != ':' && fields[1][k] != '\n' {
        assert fields[1][k] in lines[0];
      }
    }
  }

  /** A first line without ':' gives an empty version. */
  lemma VersionWithoutColon(firstLine: string, rest: string)
    requires ':' !in firstLine && '\n' !in firstLine
    ensures VersionOf(firstLine) == ""
    ensures VersionOf(firstLine + "\n" + rest) == ""
  {
    SplitNoSeparator(firstLine, '\n');
    SplitNoSeparator(firstLine, ':');
    SplitFirst(firstLine, '\n', rest);
  }

  /**
   * With a first line `key:value...`, the version is `value` cut at the next
   * ':', untrimmed, whatever follows on later lines.
   */
  lemma VersionIsSecondField(key: string, value: string, more: string, rest: string)
    requires ':' !in key && ':' !in value
    requires '\n' !in key && '\n' !in value && '\n' !in more
    ensures VersionOf(key + ":" + value + more) == VersionOf(key + ":" + value + more + "\n" + rest)
    ensures more == [] || more[0] == ':' ==> VersionOf(key + ":" + value + more) == value
  {
    var line := key + ":" + value + more;
    assert '\n' !in line by {
      assert forall c :: c in line ==> c in key || c == ':' || c in value || c in more;
    }
    SplitNoSeparator(line, '\n');
    SplitFirst(line, '\n', rest);
    assert line + "\n" + rest == line + ['\n'] + rest;
    assert line == key + [':'] + (value + more);
    SplitFirst(key, ':', value + more);
    if more == [] {
      assert value + more == value;
      SplitNoSeparator(value, ':');
    } else if more[0] == ':' {
      assert value + more == value + [':'] + more[1..];
      SplitFirst(value, ':', more[1..]);
    }
  }

  /**
   * The description is taken from the second line only; the first line and the
   * lines after the second play no part.
   */
  lemma DescriptionIsSecondLine(first: string, second: string, rest: Option<string>, msgDescription: string)
    requires '\n' !in first && '\n' !in second
    ensures var doc := if rest.Some? then first + "\n" + second + "\n" + rest.value else first + "\n" + second;
      DescriptionOf(doc, msgDescription) == second + "<br><br>" + msgDescription
  {
    if rest.Some? {
      SplitFirst(first, '\n', second + "\n" + rest.value);
      SplitFirst(second, '\n', rest.value);
      assert first + "\n" + second + "\n" + rest.value == first + ['\n'] + (second + ['\n'] + rest.value);
    } else {
      SplitFirst(first, '\n', second);
      SplitNoSeparator(second, '\n');
      assert first + "\n" + second == first + ['\n'] + second;
    }
  }

  /** A documentation of one line has no description. */
  lemma SingleLineHasNoDescription(line: string, msgDescription: string)
    requires '\n' !in line
    ensures DescriptionOf(line, msgDescription) == ""
  {
    SplitNoSeparator(line, '\n');
  }

  /** For "version:1.2" the version is "1.2". */
  lemma VersionExampleKeyValue()
    ensures VersionOf("version:1.2") == "1.2"
  {
    var key, value := "version", "1.2";
    VersionIsSecondField(key, value, "", "");
    assert key + ":" + value + "" == "version:1.2";
  }

  /** For "v1.2:some text" the version is "some text", the field after the colon, not "1.2". */
  lemma VersionExampleSecondField()
    ensures VersionOf("v1.2:some text") == "some text"
  {
    var key, value := "v1.2", "some text";
    VersionIsSecondField(key, value, "", "");
    assert key + ":" + value + "" == "v1.2:some text";
  }
}
