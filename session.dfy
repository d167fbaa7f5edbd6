/** What the two applications of kernel.c share: a step of either one handles one
    scancode and either stays in the application or returns to the menu. */
module Session {
  import opened CTypes
  import opened Vga

  datatype Signal = Continue | ReturnToMenu

  /** The result of one step of an application: its input buffer, the terminal and the signal. */
  datatype Stepped = Stepped(line: seq<Char8>, screen: Screen, signal: Signal)
}
