/** Failure-compatible result types shared by every module of the model.
    The source signals failures with Python exceptions; each `Error` value
    names the exception the source raises and the reason for it. */
module Outcomes {

  datatype Option<T> = None | Some(value: T)

  datatype Error =
    | PatternMismatch   // ValueError: the note string does not match the expected pattern
    | UnknownNoteClass  // ValueError: the note class is not a key of the scale table
    | UnknownMidiClass  // KeyError: the note class is not a key of the MIDI table note_base
    | BadOctave         // ValueError: the octave character is not a decimal digit
    | IndexOutOfRange   // IndexError: indexing an empty string or a too-short list
    | MissingEntry      // ValueError: the spectral table lacks the note or the dynamic
    | UnknownDynamic    // KeyError: the dynamic is not one of the nine level names
    | RaggedInput       // ValueError: sample lists of different lengths cannot form an array
    | MissingInput      // the form or the analysis was given no data and returns early

  datatype Result<T> = Ok(value: T) | Err(error: Error) {
    predicate IsFailure() { Err? }

    function PropagateFailure<U>(): Result<U>
      requires Err?
    {
      Err(error)
    }

    function Extract(): T
      requires Ok?
    {
      value
    }
  }
}
