/** `domain.Message` (internal/domain/message.go): one notification for
    one recipient, built fresh for each delivery. */
module Messages {
  import opened TelegramUserIds

  /** `muted` asks the sender for a silent delivery; it does not suppress it. */
  datatype Message = Message(userId: TelegramUserId, text: string, muted: bool)
}
