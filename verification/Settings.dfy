/** The settings object: a JSON object of strings, and the file it is written to and read from. */
module Settings {
  import opened Wrappers
  import opened Text
  import opened SettingsFile

  /** Reading the lines of a text takes its first line and goes on with what follows the newline. */
  lemma ReadOneLine(rest: string, d: Data)
    ensures var i := FirstIndex(rest, NEWLINE);
      ReadLines(Lines(rest), d) ==
        if i == -1 then PutLine(d, rest) else ReadLines(Lines(rest[i + 1..]), PutLine(d, rest[..i]))
  {
    hide FirstIndex, LastIndex, PutLine;
    var i, lines := FirstIndex(rest, NEWLINE), Lines(rest);
    if i == -1 {
      assert lines[1..] == [];
    } else {
      assert lines[1..] == Lines(rest[i + 1..]);
    }
  }

  /** Writing one entry. */
  lemma RenderOneMore(out: string, order: seq<string>, i: nat, m: Data)
    requires (forall k :: k in order ==> k in m) && i < |order|
    ensures var k := order[i];
      var line := if m[k] == "" then "" else Line(k, m[k]) + [NEWLINE];
      (out + line) + Render(order[i + 1..], m) == out + Render(order[i..], m)
  {
    hide Line;
    assert order[i..][1..] == order[i + 1..];
  }

  lemma RenderNothing(m: Data)
    ensures Render([], m) == ""
  {}

  lemma EmptyFileIsEmpty()
    ensures ReadFile("", map[]) == map[]
  {
    assert Lines("") == [""];
    assert ReadLines([""], map[]) == ReadLines([], map[]);
  }

  class CSettings {
    var data: Data
    var file: string
    var fileThere: bool

    /** The object of a new process: what is on disk is read. A file that is missing is created empty, if it can be,
        and one that cannot be read is left as it is. `opens` and `appends` say whether it opens for reading and for
        appending. */
    constructor (disk: string, there: bool, opens: bool, appends: bool)
      ensures there ==> fileThere && file == disk && data == if opens then ReadFile(disk, map[]) else map[]
      ensures !there ==> fileThere == appends && file == "" && data == map[] == ReadFile(file, map[])
    {
      data, file, fileThere := map[], if there then disk else "", there;
      new;
      EmptyFileIsEmpty();
      var read := ReadFromFile(opens);
      if !read {
        if appends {
          fileThere := true;
        }
      }
    }

    method GetValue(key: string) returns (value: string)
      ensures value == if key in data then data[key] else ""
    {
      value := if key in data then data[key] else "";
    }

    method ContainsKey(key: string) returns (resp: bool)
      ensures resp == Contains(data, key)
    {
      if key in data {
        if data[key] == "" {
          resp := false;
        } else {
          resp := true;
        }
      } else {
        resp := false;
      }
    }

    /** `order` is the order in which the JSON object is iterated, `opens` whether the file can be opened. */
    method WriteToFile(order: seq<string>, opens: bool) returns (status: bool)
      requires Enumerates(order, data)
      modifies this`file
      ensures status == (fileThere && opens)
      ensures file == if status then Render(order, data) else old(file)
    {
      status := false;
      if fileThere {
        if opens {
          hide Render, Line;
          var out := "";
          var i := 0;
          ghost var m, whole := data, Render(order, data);
          assert order[0..] == order;
          RenderNothing(m);
          while i < |order|
            invariant 0 <= i <= |order|
            invariant out + Render(order[i..], m) == whole
          {
            var k := order[i];
            RenderOneMore(out, order, i, m);
            if data[k] != "" {
              out := out + (Line(k, data[k]) + [NEWLINE]);
            }
            i := i + 1;
          }
          file := out;
          status := true;
        }
      }
    }

    method SetValue(key: string, value: string, order: seq<string>, opens: bool) returns (status: bool)
      requires Enumerates(order, data[key := value])
      modifies this`data, this`file
      ensures data == old(data)[key := value]
      ensures status == (fileThere && opens)
      ensures file == if status then Render(order, data) else old(file)
    {
      data := data[key := value];
      status := WriteToFile(order, opens);
    }

    /** The entry is emptied before it is removed, because removal may not take effect. */
    method Remove(key: string, removed: bool, order: seq<string>, opens: bool) returns (status: bool)
      requires Enumerates(order, if removed then data - {key} else data[key := ""])
      modifies this`data, this`file
      ensures data == if removed then old(data) - {key} else old(data)[key := ""]
      ensures !Contains(data, key) && status == (fileThere && opens)
      ensures file == if status then Render(order, data) else old(file)
    {
      data := data[key := ""];
      if removed {
        data := data - {key};
      }
      var present := ContainsKey(key);
      assert removed ==> data == old(data) - {key};
      if !present {
        status := WriteToFile(order, opens);
      } else {
        status := false;
      }
    }

    /** A line with '=' becomes an entry, split at the last one. */
    method StoreLine(content: string)
      modifies this`data
      ensures data == PutLine(old(data), content)
    {
      var pos := LastIndex(content, EQ);
      if pos != -1 {
        data := data[content[..pos] := content[pos + 1..]];
      }
    }

    method ReadFromFile(opens: bool) returns (status: bool)
      modifies this`data
      ensures status == (fileThere && opens)
      ensures data == if status then ReadFile(file, old(data)) else old(data)
    {
      status := false;
      if !fileThere {
        return;
      }
      if !opens {
        return;
      }
      hide Lines, ReadLines, PutLine, FirstIndex;
      var rest := file;
      var eof := false;
      ghost var goal := ReadFile(file, data);
      while !eof
        invariant if eof then data == goal && status else ReadLines(Lines(rest), data) == goal
        decreases if eof then 0 else 1, |rest|
      {
        // getline: up to the next newline, or to the end of the file
        var i := FirstIndex(rest, NEWLINE);
        var content := if i == -1 then rest else rest[..i];
        ReadOneLine(rest, data);
        StoreLine(content);
        status := true;
        if i == -1 {
          eof := true;
        } else {
          rest := rest[i + 1..];
        }
      }
    }
  }

  /** parseConfigFile: every non-empty line up to the first whose text before its first '=' is the key. */
  method ParseConfig(text: string, findKey: string) returns (value: Option<string>)
    ensures value == ParseConfigFile(text, findKey)
  {
    var lines := Lines(text);
    var i := 0;
    while i < |lines|
      invariant 0 <= i <= |lines|
      invariant FindKey(lines[i..], findKey) == ParseConfigFile(text, findKey)
    {
      var line := lines[i];
      assert lines[i..][1..] == lines[i + 1..];
      var eq := FirstIndex(line, EQ);
      if eq != -1 {
        if line[..eq] == findKey {
          return Some(line[eq + 1..]);
        }
      }
      i := i + 1;
    }
    return None;
  }
}
