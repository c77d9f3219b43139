/**
 * The per-line record rule of `main`: split the line on ';', take field 4,
 * decode it as a float array and keep it only when it has exactly 192
 * elements. Vector elements are an abstract type `E` and the JSON decoder
 * is a parameter, because only the decoder's success and the element count
 * decide a record's fate.
 */
module Records {
  import opened Wrappers

  const Delimiter: char := ';'

  /** The zero-based index of the embedding column. */
  const EmbeddingField: nat := 4

  /** The only vector length the record rule accepts (a literal, not `--vector-length`). */
  const AcceptedLength: nat := 192

  /** The number of times `c` occurs in `s`. */
  function Occurrences(s: string, c: char): (n: nat)
    ensures n <= |s|
    ensures n == 0 <==> c !in s
  {
    if |s| == 0 then 0 else (if s[0] == c then 1 else 0) + Occurrences(s[1..], c)
  }

  /** `str::split` with a one-character pattern: the pieces between the separators, empty ones included. */
  function Split(s: string, sep: char): (fields: seq<string>)
    ensures |fields| == Occurrences(s, sep) + 1
    ensures forall i :: 0 <= i < |fields| ==> sep !in fields[i]
  {
    if |s| == 0 then [""]
    else
      var rest := Split(s[1..], sep);
      if s[0] == sep then [""] + rest
      else [[s[0]] + rest[0]] + rest[1..]
  }

  /** The inverse of `Split`: the fields glued back together with the separator between them. */
  function Join(fields: seq<string>, sep: char): string
    requires |fields| >= 1
  {
    if |fields| == 1 then fields[0] else fields[0] + [sep] + Join(fields[1..], sep)
  }

  /** Joining the pieces of a split gives back the line. */
  lemma {:induction false} JoinSplit(s: string, sep: char)
    ensures Join(Split(s, sep), sep) == s
  {
    if |s| > 0 {
      var rest := Split(s[1..], sep);
      JoinSplit(s[1..], sep);
      if s[0] == sep {
        assert Split(s, sep) == [""] + rest;
        assert ([""] + rest)[1..] == rest;
      } else {
        var fields := Split(s, sep);
        assert fields == [[s[0]] + rest[0]] + rest[1..];
        if |rest| == 1 {
          assert Join(fields, sep) == [s[0]] + rest[0];
        } else {
          assert fields[1..] == rest[1..];
          assert Join(rest, sep) == rest[0] + [sep] + Join(rest[1..], sep);
          assert Join(fields, sep) == [s[0]] + rest[0] + [sep] + Join(rest[1..], sep);
        }
        assert [s[0]] + s[1..] == s;
      }
    }
  }

  /** Splitting text that starts with a separator-free prefix glues the prefix onto the first field. */
  lemma {:induction false} SplitPrefix(x: string, t: string, sep: char)
    requires sep !in x
    ensures Split(x + t, sep) == [x + Split(t, sep)[0]] + Split(t, sep)[1..]
  {
    if |x| > 0 {
      SplitPrefix(x[1..], t, sep);
      assert (x + t)[1..] == x[1..] + t;
      assert (x + t)[0] == x[0];
      assert [x[0]] + (x[1..] + Split(t, sep)[0]) == x + Split(t, sep)[0];
    } else {
      var fs := Split(t, sep);
      assert x + t == t && x + fs[0] == fs[0];
      assert [fs[0]] + fs[1..] == fs;
    }
  }

  /** Splitting separator-free fields glued with the separator gives back the fields. */
  lemma {:induction false} SplitJoin(fields: seq<string>, sep: char)
    requires |fields| >= 1
    requires forall i :: 0 <= i < |fields| ==> sep !in fields[i]
    ensures Split(Join(fields, sep), sep) == fields
  {
    if |fields| == 1 {
      SplitPrefix(fields[0], "", sep);
      assert fields[0] + "" == fields[0];
    } else {
      var tail := Join(fields[1..], sep);
      SplitJoin(fields[1..], sep);
      SplitPrefix(fields[0], [sep] + tail, sep);
      assert ([sep] + tail)[1..] == tail;
      assert Split([sep] + tail, sep) == [""] + fields[1..];
      assert fields[0] + ([sep] + tail) == Join(fields, sep);
      assert fields[0] + "" == fields[0];
    }
  }

  /** What happens to one decoded line in the ingestion closure. */
  datatype RecordOutcome<E> =
    | Inserted(vector: seq<E>)   // added to the index under the line's ordinal
    | ParseFailure               // one diagnostic printed, nothing added
    | WrongLength(length: nat)   // silently dropped
    | TooFewFields(fields: nat)  // `fields[4]` is out of bounds: the worker panics

  /** The record rule of the ingestion closure for one line. */
  function Classify<E>(line: string, decode: string -> Option<seq<E>>): (r: RecordOutcome<E>)
    ensures r.Inserted? ==> |r.vector| == AcceptedLength
  {
    var fields := Split(line, Delimiter);
    if |fields| <= EmbeddingField then TooFewFields(|fields|)
    else
      match decode(fields[EmbeddingField])
      case None => ParseFailure
      case Some(arr) => if |arr| == AcceptedLength then Inserted(arr) else WrongLength(|arr|)
  }

  /**
   * The record rule in terms of the line's separators: a line with fewer
   * than four ';' is short; otherwise field 4 is decoded, a failure is a
   * parse failure, and a decoded array is inserted exactly when it has 192
   * elements and dropped, with its length, otherwise.
   */
  lemma RecordRule<E>(line: string, decode: string -> Option<seq<E>>)
    ensures var r := Classify(line, decode);
      && (r.TooFewFields? <==> Occurrences(line, Delimiter) < EmbeddingField)
      && (r.TooFewFields? ==> r.fields == Occurrences(line, Delimiter) + 1)
      && (!r.TooFewFields? ==>
            var field := Split(line, Delimiter)[EmbeddingField];
            && (r.ParseFailure? <==> decode(field).None?)
            && (r.Inserted? <==> decode(field).Some? && |decode(field).value| == AcceptedLength)
            && (r.Inserted? ==> decode(field) == Some(r.vector))
            && (r.WrongLength? ==> decode(field).Some? && r.length == |decode(field).value| != AcceptedLength))
  {
  }

  /** Field 4 is taken from the line as it is glued together from its columns. */
  lemma {:induction false} ClassifyColumns<E>(columns: seq<string>, decode: string -> Option<seq<E>>)
    requires |columns| > EmbeddingField
    requires forall i :: 0 <= i < |columns| ==> Delimiter !in columns[i]
    ensures var r := Classify(Join(columns, Delimiter), decode);
      match decode(columns[EmbeddingField])
      case None => r == ParseFailure
      case Some(v) => r == if |v| == AcceptedLength then Inserted(v) else WrongLength(|v|)
  {
    SplitJoin(columns, Delimiter);
  }
}
