/**
  Coercing a backend answer into aligned arrays (dressage/proxy/sglang_client.py:82-108, 669-747): the
  alignment of ids and logprobs that stitching starts from.
 */
module SglangClient {
  import opened Wrappers
  import opened Sequences

  /** One logprob entry of the answer; any part may be missing. */
  datatype Entry = Entry(logprob: Option<real>, id: Option<Token>)

  datatype Coerced = Coerced(
    inputIds: seq<Token>,
    outputIds: seq<Token>,
    inputLogprobs: seq<real>,
    outputLogprobs: seq<real>,
    outputVersions: seq<string>,
    inputInvalid: bool,
    invalid: bool)

  function At(entries: seq<Entry>, i: nat): Option<real> {
    if i < |entries| then entries[i].logprob else None
  }

  function Values(entries: seq<Entry>, n: nat): (r: seq<real>)
    ensures |r| == n && forall i: nat | i < n :: r[i] == if At(entries, i).Some? then At(entries, i).value else 0.0
  {
    seq(n, i requires 0 <= i < n => if At(entries, i).Some? then At(entries, i).value else 0.0)
  }

  /** A wrong length, or a missing value where none may be missing. */
  ghost predicate Flawed(entries: seq<Entry>, n: nat, nullIsZero: bool) {
    |entries| != n || (!nullIsZero && exists i: nat | i < n :: At(entries, i).None?)
  }

  /** _normalize_logprobs. */
  method NormalizeLogprobs(entries: seq<Entry>, n: nat, nullIsZero: bool) returns (values: seq<real>, invalid: bool)
    ensures values == Values(entries, n) && invalid == Flawed(entries, n, nullIsZero)
  {
    invalid := |entries| != n;
    values := [];
    for i := 0 to n
      invariant |values| == i
      invariant forall k: nat | k < i :: values[k] == if At(entries, k).Some? then At(entries, k).value else 0.0
      invariant invalid <==> |entries| != n || (!nullIsZero && exists k: nat | k < i :: At(entries, k).None?)
    {
      var value := At(entries, i);
      if value.None? {
        values := values + [0.0];
        if i >= |entries| || !nullIsZero {
          invalid := true;
        }
      } else {
        values := values + [value.value];
      }
    }
  }

  /** The ids that were parsed from the entries. */
  function ParsedIds(entries: seq<Entry>): seq<Token> {
    if entries == [] then []
    else
      var last := entries[|entries| - 1];
      ParsedIds(entries[..|entries| - 1]) + if last.id.Some? then [last.id.value] else []
  }

  function OutputIds(given: seq<Token>, entries: seq<Entry>): seq<Token> {
    if given != [] then given else ParsedIds(entries)
  }

  predicate NameAllIds(entries: seq<Entry>) {
    forall i | 0 <= i < |entries| :: entries[i].id.Some?
  }

  lemma {:induction false} AllParsed(entries: seq<Entry>)
    requires NameAllIds(entries)
    ensures |ParsedIds(entries)| == |entries|
  {
    if entries != [] {
      AllParsed(entries[..|entries| - 1]);
    }
  }

  lemma OutputIdsAreNamed(given: seq<Token>, entries: seq<Entry>)
    ensures var ids := OutputIds(given, entries);
            && (given != [] ==> ids == given)
            && (given == [] && NameAllIds(entries) ==>
                  |ids| == |entries| && forall i | 0 <= i < |entries| :: entries[i].id == Some(ids[i]))
  {
    if NameAllIds(entries) {
      AllParsed(entries);
      ParsedAtMost(entries);
    }
  }

  /** _coerce_response: every array has the length of the ids it describes. */
  method CoerceResponse(given: seq<Token>, input: seq<Token>, inputEntries: seq<Entry>, entries: seq<Entry>,
                        version: Option<string>, expectInput: bool)
    returns (r: Coerced)
    ensures r.inputIds == input && r.outputIds == OutputIds(given, entries)
    ensures given != [] ==> r.outputIds == given
    ensures given == [] && NameAllIds(entries) ==>
              |r.outputIds| == |entries| && forall i | 0 <= i < |entries| :: entries[i].id == Some(r.outputIds[i])
    ensures |r.inputLogprobs| == |r.inputIds| && |r.outputLogprobs| == |r.outputIds|
    ensures version.Some? ==>
              && |r.outputVersions| == |r.outputIds|
              && forall v | v in r.outputVersions :: v == version.value
    ensures version.None? ==> r.outputVersions == []
    ensures r.outputLogprobs == Values(entries, |r.outputIds|)
    ensures r.inputInvalid == (expectInput && Flawed(inputEntries, |input|, true))
    ensures r.invalid == (r.inputInvalid || Unpaired(r.outputIds, entries))
  {
    var ids := given;
    var parsed: seq<Token> := [];
    for i := 0 to |entries|
      invariant parsed == ParsedIds(entries[..i])
    {
      assert entries[..i + 1][..i] == entries[..i];
      if entries[i].id.Some? {
        parsed := parsed + [entries[i].id.value];
      }
    }
    assert entries[..|entries|] == entries;
    OutputIdsAreNamed(given, entries);
    if ids == [] {
      ids := parsed;
    }
    var inputLogprobs, inputInvalid := seq(|input|, _ => 0.0), false;
    if expectInput {
      inputLogprobs, inputInvalid := NormalizeLogprobs(inputEntries, |input|, true);
    }
    var outputLogprobs, outputInvalid := NormalizeLogprobs(entries, |ids|, false);
    var idsInvalid := parsed != [] && parsed != ids;
    var versions := if version.Some? then seq(|ids|, _ => version.value) else [];
    r := Coerced(input, ids, inputLogprobs, outputLogprobs, versions, inputInvalid,
                 inputInvalid || outputInvalid || idsInvalid);
  }

  /** What marks the logprobs of an answer invalid. */
  ghost predicate Unpaired(ids: seq<Token>, entries: seq<Entry>) {
    Flawed(entries, |ids|, false) || (ParsedIds(entries) != [] && ParsedIds(entries) != ids)
  }

  lemma {:induction false} ParsedAtMost(entries: seq<Entry>)
    ensures |ParsedIds(entries)| <= |entries|
    ensures |ParsedIds(entries)| == |entries| ==>
              forall i | 0 <= i < |entries| :: entries[i].id == Some(ParsedIds(entries)[i])
  {
    if entries != [] {
      ParsedAtMost(entries[..|entries| - 1]);
    }
  }

  /**
    Logprobs not marked invalid belong to their tokens: entry by entry the value is the reported one and,
    if the entries name ids at all, the id is the output's.
   */
  lemma ValidMeansPaired(ids: seq<Token>, entries: seq<Entry>, i: nat)
    requires !Unpaired(ids, entries) && i < |ids|
    ensures |entries| == |ids| && entries[i].logprob == Some(Values(entries, |ids|)[i])
    ensures ParsedIds(entries) == [] || entries[i].id == Some(ids[i])
  {
    ParsedAtMost(entries);
    assert At(entries, i).Some?;
  }
}
