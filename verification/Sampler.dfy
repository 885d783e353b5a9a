/** Token selection: the greedy branch exactly, the stochastic branch as an arbitrary token. */
module Sampler {
  import opened Results
  import opened Network

  /** temperature <= 0 asks for greedy decoding; top-k and top-p only shape the stochastic branch. */
  datatype SamplingParams = SamplingParams(temperature: real, topK: int, topP: real)

  predicate IsGreedy(params: SamplingParams) {
    params.temperature <= 0.0
  }

  /** The scan used by the sampler and by speculative decoding. */
  method ArgMaxScan(row: seq<real>) returns (best: nat)
    ensures best == ArgMax(row)
    ensures row == [] ==> best == 0
    ensures row != [] ==> best < |row| && forall j :: 0 <= j < |row| ==>
              row[j] <= row[best] && (j < best ==> row[j] < row[best])
  {
    best := 0;
    var i := 1;
    while i < |row|
      invariant 1 <= i
      invariant row != [] ==> i <= |row| && best < i
      invariant row == [] ==> best == 0
      invariant forall j :: 0 <= j < i <= |row| ==> row[j] <= row[best]
      invariant forall j :: 0 <= j < best ==> row[j] < row[best]
    {
      if row[i] > row[best] {
        best := i;
      }
      i := i + 1;
    }
    FirstMaxUnique(row, best, ArgMax(row));
  }

  /**
   Picks one token; an empty row is refused. The random draw of the stochastic branch is arbitrary
   here: whatever it picks is an entry of its ordering of the vocabulary.
   */
  method Sample(row: seq<real>, params: SamplingParams) returns (r: Result<Token>)
    ensures r.Ok? <==> row != []
    ensures r.Throws? ==> r.error == InvalidArgument
    ensures r.Ok? ==> 0 <= r.value < |row|
    ensures r.Ok? && params.temperature <= 0.0 ==> IsGreedy(params) && r.value == ArgMax(row)
    ensures r.Ok? && IsGreedy(params) ==> r.value == ArgMax(row)
  {
    if row == [] {
      return Throws(InvalidArgument);
    }
    if IsGreedy(params) {
      var best := ArgMaxScan(row);
      r := Ok(best);
    } else {
      var token: Token :| 0 <= token < |row|;
      r := Ok(token);
    }
  }
}
