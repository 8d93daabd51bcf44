/** The chat domain records the adapters return. */
module ChatDomain {

  /** `chat.MultipleQuiz`; its index field is decoded from the key `correct_index`. */
  datatype MultipleQuiz = MultipleQuiz(
    id: int, question: string, options: seq<string>, correctIndex: int, explanation: string)

  /** `chat.TrueFalse`; the adapter never looks inside it. */
  datatype TrueFalse = TrueFalse(id: int, question: string, answer: bool, explanation: string)

  /** `chat.ShortAnswer`; `correctAnswer` is decoded from the key `answer`. */
  datatype ShortAnswer = ShortAnswer(id: int, question: string, correctAnswer: string, explanation: string)

  /** `chat.ChatResponse`, whose id type differs between the two adapter revisions. */
  datatype ChatResponse<Id> = ChatResponse(id: Id, chatId: Id, message: string)
}
