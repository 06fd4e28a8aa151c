/**
 The SCALE-encoded size of a stored domain, and the size the registration deposit is
 computed for.
 */
module AggregateEncoding {
  import opened Prelude
  import opened AggregateData

  /** Encoded lengths of the types the runtime chooses, and its two size limits. */
  datatype Layout = Layout(account: nat, ticketDomain: nat, ticketAllowlist: nat, aggregationSize: u32, queueSize: u32)

  /** The largest `usize` of the 32 bit runtime. */
  const USIZE_MAX: nat := U32_MAX

  function SatAdd(a: nat, b: nat): nat { Min(a + b, USIZE_MAX) }
  function SatMul(a: nat, b: nat): nat { Min(a * b, USIZE_MAX) }
  function SatSub(a: nat, b: nat): nat { if b <= a then a - b else 0 }

  /** Length of a compact-encoded `u32`. */
  function CompactLen(n: nat): nat {
    if n < 64 then 1 else if n < 0x4000 then 2 else if n < 0x4000_0000 then 4 else 5
  }

  /** Account, two balances and the statement hash. */
  function StatementLen(l: Layout): nat { l.account + 16 + 16 + 32 }

  /** Id, size and the length-prefixed statements. */
  function AggregationLen(l: Layout, a: AggregationEntry): nat {
    8 + 4 + CompactLen(|a.statements|) + |a.statements| * StatementLen(l)
  }

  ghost function QueueEntriesLen(l: Layout, q: map<nat, AggregationEntry>): nat {
    if q == map[] then 0
    else var k :| k in q; 8 + AggregationLen(l, q[k]) + QueueEntriesLen(l, q - {k})
  }

  /** The fields of fixed length: id, state, two sizes, two rules, delivery with its destination. */
  function FixedLen(l: Layout): nat { 4 + 1 + 4 + 4 + 1 + 1 + (l.account + 1 + 16 + 16) }

  /** Encoded length of a stored domain. */
  ghost function EncodedLen(l: Layout, d: Domain): nat {
    FixedLen(l)
    + (1 + if d.owner.Signer? then l.account else 0)
    + (1 + if d.ticketDomain.Some? then l.ticketDomain else 0)
    + (1 + if d.ticketAllowlist.Some? then l.ticketAllowlist + 4 else 0)
    + AggregationLen(l, d.next)
    + CompactLen(|d.shouldPublish|) + QueueEntriesLen(l, d.shouldPublish)
  }

  function MaxStatementsLen(l: Layout): nat {
    SatAdd(CompactLen(l.aggregationSize), SatMul(l.aggregationSize, StatementLen(l)))
  }

  function MaxAggregationLen(l: Layout): nat { SatAdd(12, MaxStatementsLen(l)) }

  function MaxQueueLen(l: Layout): nat {
    SatAdd(SatMul(l.queueSize, SatAdd(8, MaxAggregationLen(l))), CompactLen(l.queueSize))
  }

  /** `max_encoded_len` of a domain. */
  function MaxEncodedLen(l: Layout): nat {
    SatAdd(SatAdd(BaseLen(l), MaxAggregationLen(l)), MaxQueueLen(l))
  }

  /** `AggregationEntry::compute_encoded_size` */
  function ComputeAggregationSize(l: Layout, size: nat): nat {
    SatAdd(SatSub(MaxAggregationLen(l), MaxStatementsLen(l)),
           SatAdd(CompactLen(l.aggregationSize), SatMul(size, StatementLen(l))))
  }

  /** `DomainEntry::compute_encoded_size` for the only destination there is, one byte long. */
  function ComputeEncodedSize(l: Layout, size: nat, queue: nat): nat {
    var aggregation := ComputeAggregationSize(l, size);
    var rest := SatSub(SatSub(SatSub(MaxEncodedLen(l), MaxAggregationLen(l)), MaxQueueLen(l)), 1);
    SatAdd(SatAdd(SatAdd(rest, 1), aggregation),
           SatAdd(SatMul(queue, SatAdd(8, aggregation)), CompactLen(l.queueSize)))
  }

  /** The fields around the open aggregation and the queue, when they are all there. */
  function BaseLen(l: Layout): nat {
    FixedLen(l) + (1 + l.account) + (1 + l.ticketDomain) + (1 + l.ticketAllowlist + 4)
  }

  /** The bound on an aggregation of `size` statements that the sizes are computed with. */
  function AggregationBound(l: Layout, size: nat): nat { 12 + CompactLen(l.aggregationSize) + size * StatementLen(l) }

  /** The encoded length of the largest domain there can be: a full queue, and an open aggregation
      that lacks one statement. */
  function LargestLen(l: Layout): nat
    requires l.aggregationSize >= 1
  {
    BaseLen(l) + (12 + CompactLen(l.aggregationSize - 1) + (l.aggregationSize - 1) * StatementLen(l))
    + l.queueSize * (8 + AggregationBound(l, l.aggregationSize)) + CompactLen(l.queueSize)
  }

  /** The largest domain, if the limits allow any, has a length that a `usize` can say. */
  predicate Addressable(l: Layout) { l.aggregationSize >= 1 && l.queueSize >= 1 ==> LargestLen(l) <= USIZE_MAX }
}
