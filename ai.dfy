/** The language-model collaborator. Every request is answered: when the model's
    reply does not parse, the client substitutes a fixed default reply, so a reply is
    either the parsed answer or that default, and no request fails. */
module Ai {
  import opened Wrappers
  import opened Values

  /** A reply of the model, as a dictionary. */
  type Reply = Metadata

  /** The requests the modelled components make, with the data each one passes. */
  datatype Request =
    | AnalyzeConversation(userId: string, message: string, response: string, given: Option<Metadata>)
    | ConversationInsights(userId: string, conversationId: nat)
    | EnhanceMemory(userId: string, memoryType: string, content: string, metadata: Option<Metadata>)
    | AnalyzeMedicalMemory(userId: string, documentType: string, content: string)
    | AnalyzePregnancyMemory(userId: string, week: int, content: string)
    | MedicalMemoryInsights(userId: string, memoryId: nat)
    | PregnancyMemoryInsights(userId: string, memoryId: nat)
    | MedicalReview(userId: string, documentIds: seq<string>, context: Metadata)
    | PregnancyWeekInsights(userId: string, givenWeek: Option<int>, context: Metadata)
    | PregnancyEducation(userId: string, week: int, context: Metadata)
    | AnalyzeContractions(userId: string, data: Value, context: Metadata)
    | AppointmentRecommendations(userId: string, appointmentType: Value, context: Metadata)
    | DocumentUploadRecommendations(userId: string, documentTypes: Value, context: Metadata)
    | ReminderSettings(userId: string, reminderType: Value, context: Metadata)
    | EmergencyRecommendations(userId: string, contact: Option<string>, context: Metadata)
    | AnalyzeSymptoms(userId: string, trackingType: Value, context: Metadata)
    | TaskInsights(userId: string, task: Value, action: string)
    | TimelineInsights(userId: string, currentWeek: int)

  /** `ask` answers the requests that return a dictionary, `write` the one that returns
      text (the enhanced content of a memory). */
  datatype Model = Model(ask: Request -> Reply, write: Request -> string)
}
