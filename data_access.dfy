/**
 * The data access layer the handlers receive: the four mock repositories
 * side by side, as test/mock_dal/db.js wires them.
 */
module DataAccess {
  import ContextRepository
  import FolderRepository
  import MailboxRepository
  import MessageRepository

  class Dal {
    const context: ContextRepository.ContextRepo
    const folder: FolderRepository.FolderRepo
    const mailbox: MailboxRepository.MailboxRepo
    const message: MessageRepository.MessageRepo

    /** Each repository keeps every record under its own id. */
    ghost predicate Valid()
      reads this, context, folder, mailbox, message
    {
      context.Valid() && folder.Valid() && mailbox.Valid() && message.Valid()
    }

    /** Four empty repositories, as after `testReset()` on each. */
    constructor ()
      ensures Valid()
      ensures fresh(context) && fresh(folder) && fresh(mailbox) && fresh(message)
      ensures context.contexts == map[] && folder.folders == map[]
      ensures mailbox.mailboxes == map[] && message.messages == map[]
    {
      context := new ContextRepository.ContextRepo();
      folder := new FolderRepository.FolderRepo();
      mailbox := new MailboxRepository.MailboxRepo();
      message := new MessageRepository.MessageRepo();
    }
  }
}
