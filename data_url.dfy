/**
 * The comma split that turns a file's data URL into the base64 payload sent to the
 * chat service: `(reader.result as string).split(',')[1]` (index.tsx:157).
 */
module DataUrl {
  import opened Options

  /** `s.split(sep)` for a one-character separator: the fields between separators, in order. */
  function Split(s: string, sep: char): (r: seq<string>)
    ensures |r| >= 1
    ensures forall k :: 0 <= k < |r| ==> sep !in r[k]
  {
    if s == [] then [[]]
    else
      var rest := Split(s[1..], sep);
      if s[0] == sep then [[]] + rest
      else [[s[0]] + rest[0]] + rest[1..]
  }

  /** `fields.join(sep)`. */
  function Join(fields: seq<string>, sep: char): string
    requires |fields| >= 1
  {
    if |fields| == 1 then fields[0] else fields[0] + [sep] + Join(fields[1..], sep)
  }

  /** Joining the fields of a split gives back the text. */
  lemma {:induction false} JoinSplit(s: string, sep: char)
    ensures Join(Split(s, sep), sep) == s
  {
    if s != [] {
      var rest := Split(s[1..], sep);
      JoinSplit(s[1..], sep);
      if s[0] == sep {
        assert Split(s, sep)[1..] == rest;
      } else {
        var r := Split(s, sep);
        if |rest| == 1 {
          assert r == [[s[0]] + rest[0]];
        } else {
          assert r[1..] == rest[1..];
          assert Join(rest, sep) == rest[0] + [sep] + Join(rest[1..], sep);
        }
      }
    }
  }

  /** Splitting the join of separator-free fields gives back the fields. */
  lemma {:induction false} SplitJoin(fields: seq<string>, sep: char)
    requires |fields| >= 1
    requires forall k :: 0 <= k < |fields| ==> sep !in fields[k]
    ensures Split(Join(fields, sep), sep) == fields
    decreases |fields|, |fields[0]|
  {
    var f := fields[0];
    if f == [] {
      if |fields| > 1 {
        SplitJoin(fields[1..], sep);
        assert Join(fields, sep) == [sep] + Join(fields[1..], sep);
        assert Join(fields, sep)[1..] == Join(fields[1..], sep);
      }
    } else {
      var tail := [f[1..]] + fields[1..];
      assert forall k :: 1 <= k < |tail| ==> tail[k] == fields[k];
      SplitJoin(tail, sep);
      assert Join(fields, sep) == [f[0]] + Join(tail, sep) by {
        if |fields| > 1 {
          assert tail[1..] == fields[1..];
        }
      }
      assert Join(fields, sep)[1..] == Join(tail, sep);
      assert f[0] != sep by { assert f[0] in f; }
      assert [f[0]] + f[1..] == f;
    }
  }

  /** The second field of a data URL, or None (JavaScript's `undefined`) when it has no comma. */
  function Payload(url: string): Option<string> {
    var fields := Split(url, ',');
    if |fields| >= 2 then Some(fields[1]) else None
  }

  /** A data URL `header,data` whose two parts hold no comma yields `data`. */
  lemma {:induction false} PayloadOfDataUrl(header: string, data: string)
    requires ',' !in header && ',' !in data
    ensures Payload(header + "," + data) == Some(data)
  {
    SplitJoin([header, data], ',');
    assert Join([header, data], ',') == header + "," + data;
  }

  /** The payload is missing exactly when the URL has no comma. */
  lemma {:induction false} PayloadMissingIff(url: string)
    ensures Payload(url).None? <==> ',' !in url
  {
    JoinSplit(url, ',');
    var fields := Split(url, ',');
    if |fields| == 1 {
      assert Join(fields, ',') == fields[0];
    } else {
      assert Join(fields, ',') == fields[0] + [','] + Join(fields[1..], ',');
      assert url[|fields[0]|] == ',';
    }
  }
}
