/** `seL4_Putstring` of `async_lib.rs`: a string is sent in items of at most seven characters. */
module PutString {

  const MAX_IPC_MSG_LEN: nat := 16

  /** An `IPCItem` of this kind: the sender and its message words; words and characters are 16-bit values. */
  datatype Item = Item(cid: nat, words: seq<nat>)

  /** The characters that an item announces: the first word counts them. */
  function Payload(it: Item): seq<nat> {
    if |it.words| > 0 && it.words[0] < |it.words| then it.words[1..1 + it.words[0]] else []
  }

  /** What a receiver of the items reads. */
  function Received(items: seq<Item>): seq<nat> {
    if items == [] then [] else Received(items[..|items| - 1]) + Payload(items[|items| - 1])
  }

  /** Fills one item: the count, then the characters. */
  method FillItem(cid: nat, data: seq<nat>, offset: nat, num: nat) returns (it: Item)
    requires num <= 7 && offset + num <= |data|
    ensures it.cid == cid && |it.words| == MAX_IPC_MSG_LEN && it.words[0] == num
    ensures Payload(it) == data[offset..offset + num]
    ensures forall k :: num < k < MAX_IPC_MSG_LEN ==> it.words[k] == 0
  {
    var words := new nat[MAX_IPC_MSG_LEN](_ => 0);
    words[0] := num;
    for j := 0 to num
      invariant words[0] == num
      invariant forall k :: 1 <= k <= j ==> words[k] == data[offset + k - 1]
      invariant forall k :: j < k < MAX_IPC_MSG_LEN ==> words[k] == 0
    {
      words[j + 1] := data[offset + j];
    }
    it := Item(cid, words[..]);
  }

  lemma Rounds(length: nat)
    ensures 7 * (length / 7) <= length < 7 * (length / 7) + 7 && length % 7 == length - 7 * (length / 7)
  {}

  /** One more item extends what is received by its piece of the string. */
  lemma ReceivedMore(items: seq<Item>, it: Item, data: seq<nat>, sent: nat, num: nat)
    requires sent + num <= |data| && Received(items) == data[..sent] && Payload(it) == data[sent..sent + num]
    ensures Received(items + [it]) == data[..sent + num]
  {
    assert (items + [it])[..|items|] == items;
    assert data[..sent] + data[sent..sent + num] == data[..sent + num];
  }

  /** For every string: the payloads of the items, put together, are the string; there are
      |data| / 7 + 1 items, all full but the last, which is empty exactly if 7 divides the length. */
  method PutString(cid: nat, data: seq<nat>) returns (items: seq<Item>)
    ensures Received(items) == data
    ensures |items| == |data| / 7 + 1
    ensures forall i :: 0 <= i < |items| ==> items[i].cid == cid && |items[i].words| == MAX_IPC_MSG_LEN
    ensures forall i :: 0 <= i < |items| - 1 ==> |Payload(items[i])| == 7
    ensures |Payload(items[|items| - 1])| == |data| % 7
  {
    var round := |data| / 7;
    Rounds(|data|);
    items := [];
    ghost var sent := 0;
    for i := 0 to round + 1
      invariant |items| == i
      invariant sent == if i <= round then 7 * i else |data|
      invariant Received(items) == data[..sent]
      invariant forall k :: 0 <= k < i ==>
        items[k].cid == cid && |items[k].words| == MAX_IPC_MSG_LEN && |Payload(items[k])| == if k < round then 7 else |data| - 7 * round
    {
      var num := if i < round then 7 else |data| - 7 * i;
      assert sent == 7 * i && sent + num <= |data|;
      var it := FillItem(cid, data, i * 7, num);
      ReceivedMore(items, it, data, sent, num);
      sent := sent + num;
      items := items + [it];
    }
    assert data[..sent] == data;
  }
}
