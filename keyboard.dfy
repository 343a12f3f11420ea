/**
 * The inline keyboard both bot versions build: buttons from (callback data,
 * label) pairs, laid out two per row in input order.
 */
module Keyboard {

  datatype Button = Button(text: string, callbackData: string)

  /** The buttons in reading order: row by row, left to right. */
  function Flatten<T>(rows: seq<seq<T>>): seq<T>
  {
    if rows == [] then [] else Flatten(rows[..|rows| - 1]) + rows[|rows| - 1]
  }

  /** One button per (callback data, label) entry, in order. */
  function ButtonsOf(data: seq<(string, string)>): (buttons: seq<Button>)
    ensures |buttons| == |data|
    ensures forall i :: 0 <= i < |data| ==> buttons[i] == Button(data[i].1, data[i].0)
  {
    seq(|data|, i requires 0 <= i < |data| => Button(data[i].1, data[i].0))
  }

  /**
   * `n` buttons in rows of two: every row holds two buttons except a last
   * row of one, which exists exactly when `n` is odd.
   */
  ghost predicate RowsOfTwo<T>(layout: seq<seq<T>>, n: nat)
  {
    && |layout| == (n + 1) / 2
    && forall i :: 0 <= i < |layout| ==>
         |layout[i]| == (if i == |layout| - 1 && n % 2 == 1 then 1 else 2)
  }

  /** `_build_reply_markup`: the inline keyboard layout for the entries of `data`. */
  method BuildReplyMarkup(data: seq<(string, string)>) returns (layout: seq<seq<Button>>)
    ensures Flatten(layout) == ButtonsOf(data)
    ensures RowsOfTwo(layout, |data|)
  {
    layout := [];
    var row: seq<Button> := [];
    var counter := 0;
    for i := 0 to |data|
      invariant counter == i % 2 && |row| == counter
      invariant |layout| == i / 2
      invariant forall j :: 0 <= j < |layout| ==> |layout[j]| == 2
      invariant Flatten(layout) + row == ButtonsOf(data)[..i]
    {
      assert ButtonsOf(data)[..i + 1] == ButtonsOf(data)[..i] + [Button(data[i].1, data[i].0)];
      row := row + [Button(data[i].1, data[i].0)];
      counter := counter + 1;
      if counter > 1 {
        counter := 0;
        ghost var done := layout;
        layout := layout + [row];
        assert layout[..|layout| - 1] == done;
        row := [];
      }
    }
    assert ButtonsOf(data)[..|data|] == ButtonsOf(data);
    if counter > 0 {
      ghost var done := layout;
      layout := layout + [row];
      assert layout[..|layout| - 1] == done;
    }
  }
}
