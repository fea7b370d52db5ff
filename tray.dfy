/**
 * The tray process of main.py (`tray_process_func`): the icon's displayed reading
 * and colour, the reducer `update_loop` that drains the glucose queue, and the menu
 * callbacks that post commands back to the window process. The two queues and the
 * shutdown event shared between the processes are the fields of `Channels`.
 */
module Tray {
  import opened PyValue
  import opened SeqFacts
  import Dashboard

  /** The background of an icon that shows something other than a reading. */
  const Neutral: string := "#2b2b2b"

  /** An item of the glucose queue: the `(value, color_idx)` tuple the window process puts, or anything else. */
  datatype TrayItem = Reading(value: Value, colorIdx: Value) | Other(item: Value)

  /** What the icon shows: the text drawn and the background colour. */
  datatype Icon = Icon(text: string, background: string)

  /** Lines 64-72: a reading shows `str(val)` in its colour; anything else shows `str(item)` on grey. */
  function Render(item: TrayItem, show: Value -> string): (icon: Icon)
    ensures item.Reading? ==> icon == Icon(Text(item.value, show), Dashboard.ReadingColor(item.colorIdx))
    ensures item.Other? ==> icon == Icon(Text(item.item, show), Neutral)
    ensures icon.background == Neutral <==> item.Other?
  {
    match item
    case Reading(v, idx) => Icon(Text(v, show), Dashboard.ReadingColor(idx))
    case Other(x) => Icon(Text(x, show), Neutral)
  }

  /** The icons drawn, one per item, in queue order. */
  function Renders(items: seq<TrayItem>, show: Value -> string): (icons: seq<Icon>)
    ensures |icons| == |items|
    ensures forall i :: 0 <= i < |items| ==> icons[i] == Render(items[i], show)
  {
    if items == [] then [] else [Render(items[0], show)] + Renders(items[1..], show)
  }

  /** Drawing two batches is drawing their concatenation. */
  lemma RendersAppend(a: seq<TrayItem>, b: seq<TrayItem>, show: Value -> string)
    ensures Renders(a + b, show) == Renders(a, show) + Renders(b, show)
  {
    assert forall i :: 0 <= i < |a + b| ==> Renders(a + b, show)[i] == (Renders(a, show) + Renders(b, show))[i];
  }

  /** Line 74: the tooltip of the icon. */
  function Title(text: string): (r: string)
    ensures |r| == |text| + 17 && r[11..|r| - 6] == text
  {
    "LibreView: " + text + " mg/dL"
  }

  /** Every batch in order, as one sequence. */
  function Flatten(batches: seq<seq<TrayItem>>): seq<TrayItem>
  {
    if batches == [] then [] else Flatten(batches[..|batches| - 1]) + batches[|batches| - 1]
  }

  function Last(items: seq<TrayItem>): TrayItem
    requires items != []
  {
    items[|items| - 1]
  }

  /** Everything the tray has taken off the queue after `i` passes: the initial queue and the first `i` batches. */
  function Pulled(queue: seq<TrayItem>, arrivals: seq<seq<TrayItem>>, i: nat): seq<TrayItem>
    requires i <= |arrivals|
  {
    queue + Flatten(arrivals[..i])
  }

  /** One more pass adds its batch at the end. */
  lemma PulledSnoc(queue: seq<TrayItem>, arrivals: seq<seq<TrayItem>>, i: nat)
    requires i < |arrivals|
    ensures Pulled(queue, arrivals, i + 1) == Pulled(queue, arrivals, i) + arrivals[i]
  {
    assert arrivals[..i + 1][..i] == arrivals[..i];
    AppendAssoc(queue, Flatten(arrivals[..i]), arrivals[i]);
  }

  /** Drawing a further batch extends the drawing of everything taken so far. */
  lemma DrawMore(drawn0: seq<Icon>, taken: seq<TrayItem>, batch: seq<TrayItem>, show: Value -> string)
    ensures (drawn0 + Renders(taken, show)) + Renders(batch, show) == drawn0 + Renders(taken + batch, show)
    ensures batch != [] ==> Last(taken + batch) == Last(batch)
  {
    RendersAppend(taken, batch, show);
    AppendAssoc(drawn0, Renders(taken, show), Renders(batch, show));
  }

  /** The queues and the event shared by the window process and the tray process. */
  class Channels {
    var glucose: seq<TrayItem>
    var commands: seq<string>
    var shutdown: bool

    constructor ()
      ensures glucose == [] && commands == [] && !shutdown
    {
      glucose := [];
      commands := [];
      shutdown := false;
    }
  }

  class TrayIcon {
    /** `current_val` and `current_color` of the tray process. */
    var currentVal: string
    var currentColor: string
    /** Every image assigned to `icon.icon`, the one shown last. */
    var drawn: seq<Icon>
    var title: string
    var visible: bool
    /** Whether `icon.run()` is still running. */
    var running: bool

    const ch: Channels
    /** `str()` of a value that is not a string, left abstract. */
    const show: Value -> string

    /**
     * Lines 37-38 and 84: the state starts green with "--", but the first image is
     * drawn on the neutral grey, so the two disagree until the first item arrives.
     */
    constructor (ch: Channels, show: Value -> string)
      ensures currentVal == "--" && currentColor == Dashboard.Green
      ensures drawn == [Icon("--", Neutral)] && title == "LibreView"
      ensures !visible && running
      ensures this.ch == ch && this.show == show
    {
      this.ch := ch;
      this.show := show;
      currentVal := "--";
      currentColor := Dashboard.Green;
      drawn := [Icon("--", Neutral)];
      title := "LibreView";
      visible := false;
      running := true;
    }

    /** One turn of the inner loop: the oldest item is taken off the queue and drawn. */
    method Take()
      requires ch.glucose != []
      modifies this, ch
      ensures ch.glucose == old(ch.glucose)[1..]
      ensures Icon(currentVal, currentColor) == Render(old(ch.glucose)[0], show)
      ensures drawn == old(drawn) + [Icon(currentVal, currentColor)] && title == Title(currentVal)
      ensures ch.commands == old(ch.commands) && ch.shutdown == old(ch.shutdown)
      ensures visible == old(visible) && running == old(running)
    {
      var item := ch.glucose[0];
      ch.glucose := ch.glucose[1..];
      match item {
        case Reading(val, colorIdx) =>
          currentVal := Text(val, show);
          currentColor := if PyEq(colorIdx, Int(2)) then Dashboard.Yellow
                          else if PyEq(colorIdx, Int(3)) then Dashboard.Red
                          else Dashboard.Green;
        case Other(x) =>
          currentVal := Text(x, show);
          currentColor := Neutral;
      }
      title := Title(currentVal);
      drawn := drawn + [Icon(currentVal, currentColor)];
    }

    /**
     * The inner `while not glucose_queue.empty()` of `update_loop`: every queued item
     * is taken in FIFO order and drawn; afterwards the icon shows the last one.
     */
    method Drain()
      modifies this, ch
      ensures ch.glucose == [] && ch.commands == old(ch.commands) && ch.shutdown == old(ch.shutdown)
      ensures drawn == old(drawn) + Renders(old(ch.glucose), show)
      ensures old(ch.glucose) == [] ==>
        currentVal == old(currentVal) && currentColor == old(currentColor) && title == old(title)
      ensures old(ch.glucose) != [] ==>
        Icon(currentVal, currentColor) == Render(Last(old(ch.glucose)), show)
        && title == Title(currentVal)
      ensures visible == old(visible) && running == old(running)
    {
      ghost var taken: seq<TrayItem> := [];
      while ch.glucose != []
        invariant taken + ch.glucose == old(ch.glucose)
        invariant drawn == old(drawn) + Renders(taken, show)
        invariant taken == [] ==> currentVal == old(currentVal) && currentColor == old(currentColor) && title == old(title)
        invariant taken != [] ==> Icon(currentVal, currentColor) == Render(Last(taken), show) && title == Title(currentVal)
        invariant ch.commands == old(ch.commands) && ch.shutdown == old(ch.shutdown)
        invariant visible == old(visible) && running == old(running)
        decreases |ch.glucose|
      {
        ghost var item := ch.glucose[0];
        AppendAssoc(taken, [item], ch.glucose[1..]);
        assert ch.glucose == [item] + ch.glucose[1..];
        Take();
        DrawMore(old(drawn), taken, [item], show);
        taken := taken + [item];
      }
      assert taken + [] == taken;
    }

    /** One pass of `update_loop` after `arrived` has been put on the queue by the window process. */
    method Pass(arrived: seq<TrayItem>)
      modifies this, ch
      ensures var batch := old(ch.glucose) + arrived;
        && ch.glucose == []
        && drawn == old(drawn) + Renders(batch, show)
        && (batch != [] ==> Icon(currentVal, currentColor) == Render(Last(batch), show) && title == Title(currentVal))
        && (batch == [] ==> currentVal == old(currentVal) && currentColor == old(currentColor) && title == old(title))
      ensures ch.commands == old(ch.commands) && ch.shutdown == old(ch.shutdown)
      ensures visible == old(visible) && running == old(running)
    {
      ch.glucose := ch.glucose + arrived;
      Drain();
    }

    /**
     * `update_loop`: makes the icon visible, then drains the queue once a second until
     * the shutdown event is set. `arrivals[i]` is what the window process has put
     * before the i-th pass; the event is found clear exactly `|arrivals|` times.
     */
    method UpdateLoop(arrivals: seq<seq<TrayItem>>)
      modifies this, ch
      ensures visible
      ensures arrivals == [] ==> ch.glucose == old(ch.glucose) && drawn == old(drawn)
      ensures arrivals != [] ==>
        var done := old(ch.glucose) + Flatten(arrivals);
        && ch.glucose == []
        && drawn == old(drawn) + Renders(done, show)
        && (done != [] ==> Icon(currentVal, currentColor) == Render(done[|done| - 1], show) && title == Title(currentVal))
      ensures arrivals == [] || old(ch.glucose) + Flatten(arrivals) == [] ==>
        currentVal == old(currentVal) && currentColor == old(currentColor) && title == old(title)
      ensures ch.commands == old(ch.commands) && ch.shutdown == old(ch.shutdown) && running == old(running)
    {
      visible := true;
      ghost var taken: seq<TrayItem> := [];
      assert arrivals[..0] == [];
      for i := 0 to |arrivals|
        invariant visible && running == old(running)
        invariant ch.commands == old(ch.commands) && ch.shutdown == old(ch.shutdown)
        invariant taken + ch.glucose == Pulled(old(ch.glucose), arrivals, i)
        invariant i == 0 ==> taken == [] && ch.glucose == old(ch.glucose)
        invariant i > 0 ==> ch.glucose == []
        invariant drawn == old(drawn) + Renders(taken, show)
        invariant taken == [] ==> currentVal == old(currentVal) && currentColor == old(currentColor) && title == old(title)
        invariant taken != [] ==> Icon(currentVal, currentColor) == Render(Last(taken), show) && title == Title(currentVal)
      {
        ghost var batch := ch.glucose + arrivals[i];
        assert taken + batch == Pulled(old(ch.glucose), arrivals, i + 1) by {
          PulledSnoc(old(ch.glucose), arrivals, i);
          AppendAssoc(taken, ch.glucose, arrivals[i]);
        }
        Pass(arrivals[i]);
        DrawMore(old(drawn), taken, batch, show);
        taken := taken + batch;
      }
      assert arrivals[..|arrivals|] == arrivals;
      assert arrivals != [] ==> taken + [] == taken;
    }

    /** The "Show Monitor" menu item. */
    method OnShow()
      modifies ch
      ensures ch.commands == old(ch.commands) + ["SHOW"]
      ensures ch.glucose == old(ch.glucose) && ch.shutdown == old(ch.shutdown)
    {
      ch.commands := ch.commands + ["SHOW"];
    }

    /** The "Quit" menu item: stops the icon, asks the window to close and sets the event. */
    method OnQuit()
      modifies this, ch
      ensures !running && ch.shutdown
      ensures ch.commands == old(ch.commands) + ["QUIT"] && ch.glucose == old(ch.glucose)
      ensures currentVal == old(currentVal) && currentColor == old(currentColor) && drawn == old(drawn)
      ensures title == old(title) && visible == old(visible)
    {
      running := false;
      ch.commands := ch.commands + ["QUIT"];
      ch.shutdown := true;
    }

    /**
     * Line 90, once `icon.run()` has returned: "QUIT" is posted again, so a quit from
     * the menu leaves two "QUIT" commands for the window process.
     */
    method RunEnded()
      requires !running
      modifies ch
      ensures ch.commands == old(ch.commands) + ["QUIT"]
      ensures ch.glucose == old(ch.glucose) && ch.shutdown == old(ch.shutdown)
    {
      ch.commands := ch.commands + ["QUIT"];
    }
  }
}
