/** The bookkeeping of `generate_text` (naacl/utils.py:28-104): for each
    example, the result record built from six fixed fields and every other
    field of the example. Generation and decoding are done by the external
    model and tokenizer; their results enter as values. */
module Generation {
  import opened Wrappers

  /** The fields a result record always has. */
  const FixedKeys: set<string> :=
    {"input", "predicted_summary", "reference", "generated_text", "control_value", "control_attribute"}

  /** The example fields the fixed part reads, in the order Python reads them. */
  const RequiredKeys: seq<string> := ["input", "output", "control_value", "control_attribute"]

  datatype GenerateError = MissingKey(key: string)   // KeyError on the example

  /** The first required field the example lacks, if any. */
  function FirstMissing<V>(item: map<string, V>): (m: Option<string>)
    ensures m.None? <==> forall k :: k in RequiredKeys ==> k in item
    ensures m.Some? ==> m.value in RequiredKeys && m.value !in item
  {
    if "input" !in item then Some("input")
    else if "output" !in item then Some("output")
    else if "control_value" !in item then Some("control_value")
    else if "control_attribute" !in item then Some("control_attribute")
    else None
  }

  /** The dict literal of lines 87-94. */
  function FixedFields<V>(item: map<string, V>, generated: V, decoded: V): (f: map<string, V>)
    requires FirstMissing(item).None?
    ensures f.Keys == FixedKeys
  {
    map[
      "input" := item["input"],
      "predicted_summary" := generated,
      "reference" := item["output"],
      "generated_text" := decoded,
      "control_value" := item["control_value"],
      "control_attribute" := item["control_attribute"]]
  }

  /** The finished record: the fixed fields, plus every other field of the
      example, never overwriting a fixed one. */
  function MergedRecord<V>(item: map<string, V>, generated: V, decoded: V): (r: map<string, V>)
    requires FirstMissing(item).None?
    ensures r.Keys == FixedKeys + item.Keys
    ensures r["predicted_summary"] == generated && r["generated_text"] == decoded
    ensures r["input"] == item["input"] && r["reference"] == item["output"]
    ensures r["control_value"] == item["control_value"] && r["control_attribute"] == item["control_attribute"]
    ensures forall k :: k in item && k !in FixedKeys ==> r[k] == item[k]
  {
    item + FixedFields(item, generated, decoded)
  }

  /** Lines 87-99 for one example: set the fixed fields, then copy each
      example field whose key is not yet in the record. */
  method MergeRecord<V>(item: map<string, V>, generated: V, decoded: V)
    returns (r: Result<map<string, V>, GenerateError>)
    ensures FirstMissing(item).Some? ==> r == Err(MissingKey(FirstMissing(item).value))
    ensures FirstMissing(item).None? ==> r == Ok(MergedRecord(item, generated, decoded))
  {
    var missing := FirstMissing(item);
    if missing.Some? {
      return Err(MissingKey(missing.value));
    }
    var fixed := FixedFields(item, generated, decoded);
    var record := fixed;
    var todo := item.Keys;
    while todo != {}
      invariant todo <= item.Keys
      invariant record.Keys == fixed.Keys + (item.Keys - todo)
      invariant forall k :: k in fixed ==> record[k] == fixed[k]
      invariant forall k :: k in record && k !in fixed ==> record[k] == item[k]
      decreases todo
    {
      var key :| key in todo;
      if key !in record {
        record := record[key := item[key]];
      }
      todo := todo - {key};
    }
    assert record == item + fixed;
    return Ok(record);
  }

  /** `output[0, len(input_ids[0]):]`: the generated tokens after the prompt
      (Python slicing gives nothing when the prompt is longer). */
  function GenerationIds(output: seq<int>, promptLen: nat): (g: seq<int>)
    ensures |g| == if promptLen <= |output| then |output| - promptLen else 0
    ensures forall i :: 0 <= i < |g| ==> g[i] == output[promptLen + i]
  {
    if promptLen <= |output| then output[promptLen..] else []
  }

  /** When the model's output starts with the prompt, the prompt followed by
      the generated tokens is the whole output. */
  lemma GenerationIdsSplit(output: seq<int>, prompt: seq<int>)
    requires prompt <= output
    ensures prompt + GenerationIds(output, |prompt|) == output
    ensures |GenerationIds(output, |prompt|)| == |output| - |prompt|
  {
  }

  /** Why one example stops the loop, if it does: `new_item` keeps only
      `input_ids`, so an example without it fails at line 80
      (`new_item["input_ids"]`) before the record literal reads the other
      fields. */
  function ExampleFailure<V>(item: map<string, V>): (m: Option<string>)
    ensures m.None? <==> "input_ids" in item && forall k :: k in RequiredKeys ==> k in item
    ensures m.Some? ==> m.value !in item
    ensures "input_ids" !in item ==> m == Some("input_ids")
    ensures "input_ids" in item ==> m == FirstMissing(item)
  {
    if "input_ids" !in item then Some("input_ids") else FirstMissing(item)
  }

  /** The record of example `i`: `decode` stands for `tokenizer.decode`,
      `outputs[i]` for `output[0]` as `model.generate` returns it, and
      `promptLens[i]` for `len(input_ids[0])`. */
  function RecordOf<V>(item: map<string, V>, output: seq<int>, promptLen: nat, decode: seq<int> -> V): map<string, V>
    requires FirstMissing(item).None?
  {
    MergedRecord(item, decode(GenerationIds(output, promptLen)), decode(output))
  }

  /** The whole loop of `generate_text`: `result_dict[index]` for every
      example. The generated text is the decoding of the tokens after the
      prompt, the full text the decoding of the whole output. The first
      example without `input_ids` or a required field aborts the run. */
  method GenerateText<V>(dataset: seq<map<string, V>>, outputs: seq<seq<int>>, promptLens: seq<nat>,
                         decode: seq<int> -> V)
    returns (r: Result<map<nat, map<string, V>>, GenerateError>)
    requires |outputs| == |dataset| && |promptLens| == |dataset|
    ensures r.Ok? <==> forall i :: 0 <= i < |dataset| ==> ExampleFailure(dataset[i]).None?
    ensures r.Err? ==> exists i :: 0 <= i < |dataset| && ExampleFailure(dataset[i]) == Some(r.error.key)
                          && forall j :: 0 <= j < i ==> ExampleFailure(dataset[j]).None?
    ensures r.Ok? ==> forall i: nat :: i in r.value <==> i < |dataset|
    ensures r.Ok? ==> forall i :: 0 <= i < |dataset| ==>
              FirstMissing(dataset[i]).None? &&
              r.value[i] == RecordOf(dataset[i], outputs[i], promptLens[i], decode)
  {
    var results: map<nat, map<string, V>> := map[];
    for index := 0 to |dataset|
      invariant forall i: nat :: i in results <==> i < index
      invariant forall i :: 0 <= i < index ==> ExampleFailure(dataset[i]).None?
      invariant forall i :: 0 <= i < index ==>
                  FirstMissing(dataset[i]).None? &&
                  results[i] == RecordOf(dataset[i], outputs[i], promptLens[i], decode)
    {
      var item := dataset[index];
      if "input_ids" !in item {
        // `new_item["input_ids"]` raises before the record is built
        return Err(MissingKey("input_ids"));
      }
      var output := outputs[index];
      var decodedText := decode(output);
      var generatedText := decode(GenerationIds(output, promptLens[index]));
      var record := MergeRecord(item, generatedText, decodedText);
      if record.Err? {
        return Err(record.error);
      }
      results := results[index := record.value];
    }
    return Ok(results);
  }
}
