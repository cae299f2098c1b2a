/** What the voice registry and the workflow share from messaging/models.py. */
module MessageScopes {
  /** One chat on one platform. */
  datatype MessageScope = MessageScope(platform: string, chatId: string)
}
