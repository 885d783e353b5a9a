/** The exceptions the engine raises, as values. */
module Results {

  datatype Error =
    | OutOfBlocks        // BlockAllocator: out of blocks
    | IncrefOnFreeBlock  // BlockAllocator: incref on a free block
    | DoubleFree         // BlockAllocator: double free
    | EmptyBatch         // forward_batch: empty batch
    | EmptyInput         // forward: empty input sequence, or a batch item without tokens
    | TokenOutOfRange    // embedding: token id out of range
    | EmptyPrompt        // Engine / speculative_greedy: empty prompt
    | UnknownSequence    // sequences_.at(id) for an id never issued
    | InvalidArgument    // a shape or a count that does not fit

  datatype Result<+T> = Ok(value: T) | Throws(error: Error)

  datatype Option<+T> = None | Some(value: T)
}
