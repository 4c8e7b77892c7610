/**
  The C12.18 link as the data module sees it: get_table_part(table, length,
  offset) either returns bytes or raises C1218ReadTableError. What the meter
  answers is a fixed function of the request; every request is recorded.
 */
module TableSource {
  import opened Int32Codec

  datatype Request = Request(tableId: int, length: int, offset: int)

  datatype ReadReply = Bytes(data: seq<Byte>) | ReadTableError(message: string)

  class Connection {
    /** The meter's answer to each request. */
    const respond: Request -> ReadReply
    /** The requests made so far, oldest first. */
    var requests: seq<Request>

    constructor (respond: Request -> ReadReply)
      ensures this.respond == respond && requests == []
    {
      this.respond := respond;
      requests := [];
    }

    /** get_table_part(tableId, length, offset). */
    method GetTablePart(tableId: int, length: int, offset: int) returns (reply: ReadReply)
      modifies this
      ensures requests == old(requests) + [Request(tableId, length, offset)]
      ensures reply == respond(Request(tableId, length, offset))
    {
      requests := requests + [Request(tableId, length, offset)];
      reply := respond(Request(tableId, length, offset));
    }
  }
}
