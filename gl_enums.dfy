/** The OpenGL enumerants the core refers to, with their values from the
    OpenGL 4.5 core profile headers. */
module GLEnums {

  const GL_FALSE: int := 0
  const GL_TRUE: int := 1

  // glGetError status codes
  const GL_NO_ERROR: int := 0

  // Buffer binding targets and the glGetInteger parameters that read them
  const GL_ARRAY_BUFFER: int := 0x8892
  const GL_ELEMENT_ARRAY_BUFFER: int := 0x8893
  const GL_ARRAY_BUFFER_BINDING: int := 0x8894
  const GL_ELEMENT_ARRAY_BUFFER_BINDING: int := 0x8895
  const GL_PIXEL_PACK_BUFFER: int := 0x88EB
  const GL_PIXEL_UNPACK_BUFFER: int := 0x88EC
  const GL_PIXEL_PACK_BUFFER_BINDING: int := 0x88ED
  const GL_PIXEL_UNPACK_BUFFER_BINDING: int := 0x88EF
  const GL_UNIFORM_BUFFER: int := 0x8A11
  const GL_UNIFORM_BUFFER_BINDING: int := 0x8A28
  const GL_TEXTURE_BUFFER: int := 0x8C2A
  const GL_TEXTURE_BUFFER_BINDING: int := 0x8C2A
  const GL_TRANSFORM_FEEDBACK_BUFFER: int := 0x8C8E
  const GL_TRANSFORM_FEEDBACK_BUFFER_BINDING: int := 0x8C8F
  const GL_DRAW_INDIRECT_BUFFER: int := 0x8F3F
  const GL_DRAW_INDIRECT_BUFFER_BINDING: int := 0x8F43
  const GL_SHADER_STORAGE_BUFFER: int := 0x90D2
  const GL_SHADER_STORAGE_BUFFER_BINDING: int := 0x90D3
  const GL_DISPATCH_INDIRECT_BUFFER: int := 0x90EE
  const GL_DISPATCH_INDIRECT_BUFFER_BINDING: int := 0x90EF
  const GL_QUERY_BUFFER: int := 0x9192
  const GL_QUERY_BUFFER_BINDING: int := 0x9193
  const GL_ATOMIC_COUNTER_BUFFER: int := 0x92C0
  const GL_ATOMIC_COUNTER_BUFFER_BINDING: int := 0x92C1
  const GL_COPY_READ_BUFFER: int := 0x8F36

  // Texture targets and the glGetInteger parameters that read them
  const GL_TEXTURE_1D: int := 0x0DE0
  const GL_TEXTURE_2D: int := 0x0DE1
  const GL_TEXTURE_3D: int := 0x806F
  const GL_TEXTURE_BINDING_1D: int := 0x8068
  const GL_TEXTURE_BINDING_2D: int := 0x8069
  const GL_TEXTURE_BINDING_3D: int := 0x806A
  const GL_TEXTURE_RECTANGLE: int := 0x84F5
  const GL_TEXTURE_BINDING_RECTANGLE: int := 0x84F6
  const GL_TEXTURE_CUBE_MAP: int := 0x8513
  const GL_TEXTURE_BINDING_CUBE_MAP: int := 0x8514
  const GL_TEXTURE_1D_ARRAY: int := 0x8C18
  const GL_TEXTURE_2D_ARRAY: int := 0x8C1A
  const GL_TEXTURE_BINDING_1D_ARRAY: int := 0x8C1C
  const GL_TEXTURE_BINDING_2D_ARRAY: int := 0x8C1D
  const GL_TEXTURE_BINDING_BUFFER: int := 0x8C2C
  const GL_TEXTURE_CUBE_MAP_ARRAY: int := 0x9009
  const GL_TEXTURE_BINDING_CUBE_MAP_ARRAY: int := 0x900A
  const GL_TEXTURE_2D_MULTISAMPLE: int := 0x9100
  const GL_TEXTURE_2D_MULTISAMPLE_ARRAY: int := 0x9102
  const GL_TEXTURE_BINDING_2D_MULTISAMPLE: int := 0x9104
  const GL_TEXTURE_BINDING_2D_MULTISAMPLE_ARRAY: int := 0x9105
  const GL_ACTIVE_TEXTURE: int := 0x84E0
  const GL_TEXTURE0: int := 0x84C0

  // Other glGetInteger parameters
  const GL_VERTEX_ARRAY_BINDING: int := 0x85B5
  const GL_CURRENT_PROGRAM: int := 0x8B8D
  const GL_NUM_EXTENSIONS: int := 0x821D
  const GL_EXTENSIONS: int := 0x1F03

  // Shader and program parameters
  const GL_COMPILE_STATUS: int := 0x8B81
  const GL_LINK_STATUS: int := 0x8B82
  const GL_INFO_LOG_LENGTH: int := 0x8B84
}
