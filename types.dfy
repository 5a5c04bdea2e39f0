/** The records shared by the practice store, the flash game and the prompt timer. */
module Types {

  /** A prompt as the prompt service returns it. */
  datatype Prompt = Prompt(id: int, text: string, romaji: string, difficulty: int)

  /** The per-prompt time-limit mode: "easy" | "normal" | "hard". */
  datatype Mode = Easy | Normal | Hard

  /** One entry of the practice history. */
  datatype RoundResult = RoundResult(promptId: int, wpm: real, accuracy: real, timestamp: int)
}
