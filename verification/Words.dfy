/** The machine word of all modules: values and addresses are unsigned 32-bit numbers. */
module Words {

  const U32: nat := 0x1_0000_0000
}
