/** The notification record of the first Flask service. */
module NotificationModels {

  /** An instant of the clock (`datetime.now(utc)` at creation). The model
      only stores it. */
  type Timestamp = int

  /** `NotificationModel`. The manager later overwrites `id` when it stores
      the record, and a PATCH request overwrites `message`, `ttl`,
      `displayedTimes` and `displayedOnce`; nothing reassigns the creation
      date or the category, so those are constants. */
  class NotificationModel {
    var id: int
    var message: string
    var ttl: int
    const creationDate: Timestamp
    const notificationCategory: string
    var displayedTimes: int
    var displayedOnce: bool

    /** A new record has id 0 until a manager assigns one, has never been
        displayed, and keeps the given fields as they are. */
    constructor (message: string, ttl: int, creationDate: Timestamp, notificationCategory: string)
      ensures id == 0
      ensures this.message == message && this.ttl == ttl
      ensures this.creationDate == creationDate && this.notificationCategory == notificationCategory
      ensures displayedTimes == 0 && !displayedOnce
    {
      id := 0;
      this.message := message;
      this.ttl := ttl;
      this.creationDate := creationDate;
      this.notificationCategory := notificationCategory;
      displayedTimes := 0;
      displayedOnce := false;
    }
  }
}
