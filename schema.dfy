/**
 * The records of app/models/schema.py. Pydantic defaults become the
 * constructor functions `New…`, which take only the required fields.
 * Timestamps (`created_at`, `updated_at`) are abstract clock readings.
 */
module Schema {
  import opened Wrappers

  /** The task states; the string is the enum's value. */
  datatype TaskStatus =
    | Pending | Initializing | LoggingIn | Searching
    | Communicating | Comparing | Completed | Failed
  {
    function Value(): string {
      match this
      case Pending => "pending"
      case Initializing => "initializing"
      case LoggingIn => "logging_in"
      case Searching => "searching"
      case Communicating => "communicating"
      case Comparing => "comparing"
      case Completed => "completed"
      case Failed => "failed"
    }
  }

  /** Every member of the enum, in declaration order. */
  const AllStatuses: seq<TaskStatus> :=
    [Pending, Initializing, LoggingIn, Searching, Communicating, Comparing, Completed, Failed]

  /** The enum has exactly eight members, listed once each, with pairwise distinct values. */
  lemma StatusesDistinct()
    ensures |AllStatuses| == 8
    ensures forall s: TaskStatus :: s in AllStatuses
    ensures forall i, j :: 0 <= i < j < |AllStatuses| ==> AllStatuses[i].Value() != AllStatuses[j].Value()
  {
    forall s: TaskStatus ensures s in AllStatuses {
      match s
      case Pending => assert AllStatuses[0] == s;
      case Initializing => assert AllStatuses[1] == s;
      case LoggingIn => assert AllStatuses[2] == s;
      case Searching => assert AllStatuses[3] == s;
      case Communicating => assert AllStatuses[4] == s;
      case Comparing => assert AllStatuses[5] == s;
      case Completed => assert AllStatuses[6] == s;
      case Failed => assert AllStatuses[7] == s;
    }
  }

  datatype UserCredentials = UserCredentials(username: string, password: string)

  /** A search request: the query, the price ceiling and the credentials are all required. */
  datatype SearchRequest = SearchRequest(query: string, maxPrice: real, credentials: UserCredentials)

  datatype ProductInfo = ProductInfo(
    id: string,
    title: string,
    price: real,
    sellerName: string,
    sellerId: string,
    location: string,
    description: string,
    images: seq<string>,
    url: string)

  /** `ProductInfo(...)` without `images`: every field but `images` is required, and `images` defaults to empty. */
  function NewProductInfo(id: string, title: string, price: real, sellerName: string, sellerId: string,
                          location: string, description: string, url: string): (p: ProductInfo)
    ensures p.images == []
    ensures p.id == id && p.title == title && p.price == price && p.sellerName == sellerName
    ensures p.sellerId == sellerId && p.location == location && p.description == description && p.url == url
  {
    ProductInfo(id, title, price, sellerName, sellerId, location, description, [], url)
  }

  /** One entry of a communication log: its kind ("sent"/"received") and its text. */
  datatype MessageEntry = MessageEntry(kind: string, message: string)

  datatype CommunicationRecord = CommunicationRecord(
    sellerId: string,
    sellerName: string,
    messages: seq<MessageEntry>,
    finalPrice: Option<real>,
    status: string)

  /** `CommunicationRecord(seller_id, seller_name)`: no messages, no final price, status "pending". */
  function NewCommunicationRecord(sellerId: string, sellerName: string): (r: CommunicationRecord)
    ensures r.messages == [] && r.finalPrice == None && r.status == "pending"
    ensures r.sellerId == sellerId && r.sellerName == sellerName
  {
    CommunicationRecord(sellerId, sellerName, [], None, "pending")
  }

  datatype TaskProgress = TaskProgress(
    taskId: string,
    status: TaskStatus,
    progress: real,
    message: string,
    productsFound: seq<ProductInfo>,
    communications: seq<CommunicationRecord>,
    bestDeal: Option<ProductInfo>,
    createdAt: int,
    updatedAt: int)

  /**
   * `TaskProgress(task_id=…, status=…[, message=…])`: progress 0, no
   * products, no communications, no best deal; both timestamps read from
   * the clock. The message is optional and defaults to "".
   */
  function NewTaskProgress(taskId: string, status: TaskStatus, now: int, message: string := ""): (t: TaskProgress)
    ensures t.progress == 0.0 && t.productsFound == [] && t.communications == [] && t.bestDeal == None
    ensures t.taskId == taskId && t.status == status && t.message == message
    ensures t.createdAt == now && t.updatedAt == now
  {
    TaskProgress(taskId, status, 0.0, message, [], [], None, now, now)
  }

  /**
   * A record created without a message has the empty message, and differs
   * from one created with any message only in that field.
   */
  lemma DefaultMessageEmpty(taskId: string, status: TaskStatus, now: int, message: string)
    ensures NewTaskProgress(taskId, status, now).message == ""
    ensures NewTaskProgress(taskId, status, now) == NewTaskProgress(taskId, status, now, message := message).(message := "")
  {
  }
}
